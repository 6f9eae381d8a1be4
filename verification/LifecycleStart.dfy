/** Which bridges start: for every way the calls can turn out, a bridge is counted if and only if its pair is
    supported and all its calls succeed, and then it runs with its initial pass behind it. */
module LifecycleStart {
  import opened Basics
  import opened SpiTransaction
  import opened Lifecycle
  import opened LifecycleSafety
  import opened LifecycleTrace
  import opened LifecyclePoll
  import opened LifecycleStop

  /** How the calls made for one bridge turn out, and what the device and the broker answer in the initial
      pass. */
  datatype Answers = Answers(
    destAlloc: bool, sourceAlloc: bool, connected: bool, fdOk: bool, setUp: bool, fd: nat, threaded: bool,
    ios: nat -> Io, nets: nat -> Net)

  function TxnAt(pc: Pc): nat {
    match pc
    case InitTxn(_, k) => k
    case InitRx(_, k, _) => k
    case _ => 0
  }

  function OkAt(a: Answers, pc: Pc): bool {
    match pc
    case AllocDest(_) => a.destAlloc
    case AllocSource(_) => a.sourceAlloc
    case StartDest(_) => a.connected
    case StartSource(_) => a.fdOk
    case StartPolling(_) => a.threaded
    case _ => true
  }

  function EnvAt(a: Answers, pc: Pc): Env {
    Env(OkAt(a, pc), a.setUp, a.fd, [], a.ios(TxnAt(pc)), a.nets(TxnAt(pc)))
  }

  function MainAlone(a: Answers): State -> Option<State> {
    (s: State) => MainStep(s, EnvAt(a, s.pc))
  }

  /** The state after the main thread has taken `n` steps, and nobody else any. */
  function Mains(s: State, a: Answers, n: nat): Option<State> {
    Iterate(MainAlone(a), s, n)
  }

  /** Such steps are a run. */
  lemma {:induction false} MainsIsRun(s: State, a: Answers, n: nat) returns (es: seq<Event>)
    requires Mains(s, a, n).Some?
    ensures |es| == n && Run(s, es) == Mains(s, a, n) && forall k :: 0 <= k < n ==> es[k].Main?
    decreases n
  {
    if n == 0 {
      return [];
    }
    var e := Main(EnvAt(a, s.pc));
    var rest := MainsIsRun(MainAlone(a)(s).value, a, n - 1);
    RunOne(s, e, rest);
    es := [e] + rest;
  }

  lemma MainsKeep(s: State, t: State, a: Answers, n: nat)
    requires Inv(s) && Mains(s, a, n) == Some(t)
    ensures Inv(t)
  {
    var es := MainsIsRun(s, a, n);
    RunKeeps(s, t, es);
  }

  // ---- one bridge -------------------------------------------------------------------------------------------

  /** The pair is supported, and every call made for it succeeds. */
  predicate Starts(b: Bridge, a: Answers) {
    && b.named && IsSpi(b.from) && IsMqtt(b.to)
    && a.destAlloc && a.sourceAlloc && a.connected && a.fdOk && a.setUp && a.threaded
  }

  /** What a failed start leaves alone, and a successful one until its end. */
  predicate Uncounted(s: State, t: State, a: Answers) {
    && t.config == s.config && t.stop == s.stop && t.reload == s.reload && t.arrays == s.arrays
    && t.count == s.count && t.started == s.started && t.workers == s.workers
    && t.heap.fds.Keys <= s.heap.fds.Keys + {a.fd}
  }

  /** One running bridge more, its worker about to test the flag for the first time. */
  predicate Counted(s: State, t: State, i: nat, a: Answers) {
    && t.config == s.config && t.stop == s.stop && t.reload == s.reload && t.arrays == s.arrays
    && t.count == s.count + 1 && t.started == s.started + [i]
    && SourceReady(t, s.count) && SourceOf(t, s.count) !in s.workers
    && t.workers == s.workers[SourceOf(t, s.count) := Test]
    && t.heap.fds.Keys <= s.heap.fds.Keys + {a.fd}
  }

  /** The bridge `i` is dealt with, and was started or not. */
  predicate Dealt(s: State, t: State, i: nat, a: Answers, ok: bool) {
    t.pc == Prepare(i + 1) && if ok then Counted(s, t, i, a) else Uncounted(s, t, a)
  }

  /** The runtime in slot `j` has the initial pass over `txns` behind it, and nothing else. */
  predicate PassMade(t: State, j: nat, txns: seq<Txn>, a: Answers) {
    && SourceReady(t, j)
    && var spi := t.heap.spis[SourceOf(t, j)];
      && spi.transactions == txns
      && spi.execs == PassExecs(0, |txns|, a.ios) && spi.calls == PassCalls(txns, 0, a.ios, a.nets)
  }

  lemma LaterDealt(s: State, s1: State, t: State, i: nat, a: Answers, ok: bool)
    requires Uncounted(s, s1, a) && Dealt(s1, t, i, a, ok)
    ensures Dealt(s, t, i, a, ok)
  {
  }

  lemma ThenDealt(s: State, s1: State, t: State, i: nat, a: Answers, ok: bool, m: nat, n: nat)
    requires Mains(s, a, m) == Some(s1) && Uncounted(s, s1, a)
    requires Mains(s1, a, n) == Some(t) && Dealt(s1, t, i, a, ok)
    ensures Mains(s, a, m + n) == Some(t) && Dealt(s, t, i, a, ok)
  {
    IterateThen(MainAlone(a), s, m, n);
    LaterDealt(s, s1, t, i, a, ok);
  }

  /** One step more in front. */
  lemma StepDealt(s: State, s1: State, t: State, i: nat, a: Answers, ok: bool, n: nat)
    requires MainStep(s, EnvAt(a, s.pc)) == Some(s1) && Uncounted(s, s1, a)
    requires Mains(s1, a, n) == Some(t) && Dealt(s1, t, i, a, ok)
    ensures Mains(s, a, n + 1) == Some(t) && Dealt(s, t, i, a, ok)
  {
    assert MainAlone(a)(s) == Some(s1);
    LaterDealt(s, s1, t, i, a, ok);
  }

  // ---- the initial pass ---------------------------------------------------------------------------------------

  /** The state at another place, with another runtime record. */
  function PutMain(s: State, sp: nat, spi: Spi, pc: Pc): State {
    Goto(SetSpi(s, sp, spi), pc)
  }

  lemma PutMainTwice(s: State, sp: nat, spi: Spi, pc: Pc, spi': Spi, pc': Pc)
    ensures PutMain(PutMain(s, sp, spi, pc), sp, spi', pc') == PutMain(s, sp, spi', pc')
  {
    assert s.heap.spis[sp := spi][sp := spi'] == s.heap.spis[sp := spi'];
  }

  /** The slot under construction has `sp` as its runtime, fully wired. */
  predicate Initial(s: State, sp: nat) {
    SourceReady(s, s.count) && SourceOf(s, s.count) == sp && Wired(s, sp)
  }

  lemma PutInitial(s: State, sp: nat, spi: Spi, pc: Pc)
    requires Initial(s, sp) && SameRuntime(spi, s.heap.spis[sp])
    ensures Initial(PutMain(s, sp, spi, pc), sp)
  {
  }

  /** The main thread's steps within the initial pass. */
  function PassStep(s: State, a: Answers): Option<State> {
    if !SourceReady(s, s.count) then None
    else
      match s.pc
      case InitTxn(i, k) => InitTxnStep(s, i, k, EnvAt(a, s.pc))
      case InitRx(i, k, payload) => InitRxStep(s, i, k, payload, EnvAt(a, s.pc))
      case _ => None
  }

  function PassAlone(a: Answers): State -> Option<State> {
    (s: State) => PassStep(s, a)
  }

  function Passes(s: State, a: Answers, n: nat): Option<State> {
    Iterate(PassAlone(a), s, n)
  }

  lemma PassIsMain(s: State, a: Answers)
    requires PassStep(s, a).Some?
    ensures MainStep(s, EnvAt(a, s.pc)) == PassStep(s, a)
  {
  }

  lemma InitialCall(s: State, sp: nat, i: nat, k: nat, payload: seq<byte>, a: Answers) returns (n: nat)
    requires Initial(s, sp) && s.pc == InitRx(i, k, payload)
    ensures var spi := s.heap.spis[sp];
      Passes(s, a, n) == Some(PutMain(s, sp, spi.(calls := spi.calls + [Fate(payload, a.nets(k))]), InitTxn(i, k + 1)))
  {
    n := 1;
    CallIsFate(s, sp, payload, a.nets(k));
    var spi := s.heap.spis[sp];
    IterateOne(PassAlone(a), s,
               PutMain(s, sp, spi.(calls := spi.calls + [Fate(payload, a.nets(k))]), InitTxn(i, k + 1)));
  }

  lemma InitialExec(s: State, sp: nat, i: nat, k: nat, a: Answers) returns (n: nat)
    requires Initial(s, sp) && s.pc == InitTxn(i, k) && k < |s.heap.spis[sp].transactions|
    ensures var spi := s.heap.spis[sp];
      var d := Delivered(spi.transactions[k], a.ios(k));
      Passes(s, a, n) == Some(PutMain(s, sp, spi.(execs := spi.execs + [Exec(k, a.ios(k))]),
                                     if d.Some? then InitRx(i, k, d.value) else InitTxn(i, k + 1)))
  {
    n := 1;
    var spi := s.heap.spis[sp];
    var d := Delivered(spi.transactions[k], a.ios(k));
    IterateOne(PassAlone(a), s, PutMain(s, sp, spi.(execs := spi.execs + [Exec(k, a.ios(k))]),
                                        if d.Some? then InitRx(i, k, d.value) else InitTxn(i, k + 1)));
  }

  lemma InitialTxn(s: State, sp: nat, i: nat, k: nat, a: Answers) returns (n: nat)
    requires Initial(s, sp) && s.pc == InitTxn(i, k) && k < |s.heap.spis[sp].transactions|
    ensures Passes(s, a, n) ==
            Some(PutMain(s, sp, AfterTxn(s.heap.spis[sp], k, a.ios(k), a.nets(k)), InitTxn(i, k + 1)))
  {
    var spi := s.heap.spis[sp];
    var d := Delivered(spi.transactions[k], a.ios(k));
    var ran := spi.(execs := spi.execs + [Exec(k, a.ios(k))]);
    n := InitialExec(s, sp, i, k, a);
    if d.Some? {
      var s1 := PutMain(s, sp, ran, InitRx(i, k, d.value));
      PutInitial(s, sp, ran, InitRx(i, k, d.value));
      var m := InitialCall(s1, sp, i, k, d.value, a);
      IterateThen(PassAlone(a), s, n, m);
      PutMainTwice(s, sp, ran, InitRx(i, k, d.value), AfterTxn(spi, k, a.ios(k), a.nets(k)), InitTxn(i, k + 1));
      n := n + m;
    } else {
      assert spi.calls + [] == spi.calls;
    }
  }

  lemma InitialEnd(s: State, sp: nat, i: nat, k: nat, a: Answers) returns (n: nat)
    requires Initial(s, sp) && s.pc == InitTxn(i, k) && k == |s.heap.spis[sp].transactions|
    ensures Passes(s, a, n) == Some(PutMain(s, sp, s.heap.spis[sp], StartPolling(i)))
  {
    n := 1;
    assert s.heap.spis[sp := s.heap.spis[sp]] == s.heap.spis;
    IterateOne(PassAlone(a), s, PutMain(s, sp, s.heap.spis[sp], StartPolling(i)));
  }

  lemma {:induction false} InitialPass(s: State, sp: nat, i: nat, k: nat, a: Answers) returns (n: nat)
    requires Initial(s, sp) && s.pc == InitTxn(i, k) && k <= |s.heap.spis[sp].transactions|
    ensures Passes(s, a, n) == Some(PutMain(s, sp, AfterPass(s.heap.spis[sp], k, a.ios, a.nets), StartPolling(i)))
    decreases |s.heap.spis[sp].transactions| - k
  {
    var spi := s.heap.spis[sp];
    if k == |spi.transactions| {
      PassOver(spi, k, a.ios, a.nets);
      n := InitialEnd(s, sp, i, k, a);
    } else {
      var first := InitialTxn(s, sp, i, k, a);
      var spi1 := AfterTxn(spi, k, a.ios(k), a.nets(k));
      var s1 := PutMain(s, sp, spi1, InitTxn(i, k + 1));
      PutInitial(s, sp, spi1, InitTxn(i, k + 1));
      var rest := InitialPass(s1, sp, i, k + 1, a);
      IterateThen(PassAlone(a), s, first, rest);
      PassSplits(spi, k, a.ios, a.nets);
      PutMainTwice(s, sp, spi1, InitTxn(i, k + 1), AfterPass(spi, k, a.ios, a.nets), StartPolling(i));
      n := first + rest;
    }
  }

  lemma PassesAreMains(s: State, a: Answers, n: nat)
    requires Passes(s, a, n).Some?
    ensures Mains(s, a, n) == Passes(s, a, n)
  {
    forall x: State | PassAlone(a)(x).Some? ensures MainAlone(a)(x) == PassAlone(a)(x) {
      PassIsMain(x, a);
    }
    IterateAs(PassAlone(a), MainAlone(a), s, n);
  }

  // ---- the calls, from the last to the first --------------------------------------------------------------------

  /** The bridge being started, and the slot it is put into. */
  predicate Building(s: State, i: nat, b: Bridge) {
    && s.config.Some? && i < |s.config.value| && s.config.value[i] == b
    && SlotReady(s, s.count) && Serves(s.slots[s.count], b)
  }

  lemma Builds(s: State, i: nat)
    requires PcOk(s) && StartedOk(s) && Progress(s.pc) > 0 && StartIndex(s.pc) == Some(i)
    ensures s.config.Some? && i < |s.config.value| && Building(s, i, s.config.value[i])
  {
  }

  lemma SourceWired(s: State)
    requires Inv(s) && Progress(s.pc) == 5
    ensures SourceReady(s, s.count) && Initial(s, SourceOf(s, s.count))
    ensures !s.heap.spis[SourceOf(s, s.count)].polling && SourceOf(s, s.count) !in s.workers
    ensures s.slots[s.count].from.Some?
    ensures s.heap.spis[SourceOf(s, s.count)].transactions == s.slots[s.count].from.value.transactions
  {
    assert SlotReady(s, s.count);
    assert BuildSlot(s.heap, s.slots[s.count], SlotRef(s.arrays, s.count), Progress(s.pc));
    UnderConstruction(s);
  }

  /** The runtime in the slot under construction has no worker. */
  predicate Unworked(s: State) {
    && SourceReady(s, s.count)
    && !s.heap.spis[SourceOf(s, s.count)].polling && SourceOf(s, s.count) !in s.workers
  }

  lemma ThreadStep(s: State, i: nat, a: Answers) returns (t: State)
    requires s.pc == StartPolling(i) && Unworked(s)
    ensures StartPollingStep(s, i, EnvAt(a, s.pc)) == Some(t) && Dealt(s, t, i, a, a.threaded)
    ensures SourceReady(t, s.count) && SourceOf(t, s.count) == SourceOf(s, s.count)
    ensures SameRuntime(t.heap.spis[SourceOf(s, s.count)].(polling := false, stopFlag := false),
                        s.heap.spis[SourceOf(s, s.count)].(stopFlag := false))
    ensures var sp := SourceOf(s, s.count);
      t.heap.spis[sp].execs == s.heap.spis[sp].execs && t.heap.spis[sp].calls == s.heap.spis[sp].calls
  {
    t := StartPollingStep(s, i, EnvAt(a, s.pc)).value;
  }

  /** The thread. */
  lemma FromThread(s: State, i: nat, a: Answers, txns: seq<Txn>) returns (n: nat, t: State)
    requires s.pc == StartPolling(i) && Unworked(s) && PassMade(s, s.count, txns, a)
    ensures Mains(s, a, n) == Some(t) && Dealt(s, t, i, a, a.threaded) && PassMade(t, s.count, txns, a)
  {
    t := ThreadStep(s, i, a);
    n := 1;
    IterateOne(MainAlone(a), s, t);
  }

  lemma PassLeads(s: State, i: nat, a: Answers) returns (n: nat, t: State)
    requires Inv(s) && s.pc == InitTxn(i, 0) && SourceReady(s, s.count)
    requires s.heap.spis[SourceOf(s, s.count)].execs == [] && s.heap.spis[SourceOf(s, s.count)].calls == []
    ensures Mains(s, a, n) == Some(t) && t.pc == StartPolling(i) && t.count == s.count && Uncounted(s, t, a)
    ensures PassMade(t, s.count, s.heap.spis[SourceOf(s, s.count)].transactions, a)
  {
    SourceWired(s);
    var sp := SourceOf(s, s.count);
    var spi := s.heap.spis[sp];
    n := InitialPass(s, sp, i, 0, a);
    PassesAreMains(s, a, n);
    t := PutMain(s, sp, AfterPass(spi, 0, a.ios, a.nets), StartPolling(i));
    var execs, calls := PassExecs(0, |spi.transactions|, a.ios), PassCalls(spi.transactions, 0, a.ios, a.nets);
    assert [] + execs == execs && [] + calls == calls;
  }

  /** Just opened, with the connector's list and nothing done yet. */
  predicate Opened(spi: Spi, from: Option<Connector>) {
    from.Some? && spi.transactions == from.value.transactions && spi.execs == [] && spi.calls == []
  }

  lemma PassKeeps(s: State, i: nat, a: Answers, from: Option<Connector>) returns (n: nat, t: State)
    requires Inv(s) && s.pc == InitTxn(i, 0) && SourceReady(s, s.count)
    requires Opened(s.heap.spis[SourceOf(s, s.count)], from)
    ensures Mains(s, a, n) == Some(t) && t.pc == StartPolling(i) && t.count == s.count && Uncounted(s, t, a)
    ensures PassMade(t, t.count, from.value.transactions, a) && Unworked(t)
  {
    n, t := PassLeads(s, i, a);
    MainsKeep(s, t, a, n);
    SourceWired(t);
  }

  /** The initial pass, then the thread. */
  lemma FromPass(s: State, i: nat, a: Answers, from: Option<Connector>) returns (n: nat, t: State)
    requires Inv(s) && s.pc == InitTxn(i, 0) && SourceReady(s, s.count)
    requires Opened(s.heap.spis[SourceOf(s, s.count)], from)
    ensures Mains(s, a, n) == Some(t) && Dealt(s, t, i, a, a.threaded)
    ensures PassMade(t, s.count, from.value.transactions, a)
  {
    var m, s1 := PassKeeps(s, i, a, from);
    n, t := ThreadAfter(s, s1, i, a, from.value.transactions, m);
  }

  lemma ThreadAfter(s: State, s1: State, i: nat, a: Answers, txns: seq<Txn>, m: nat) returns (n: nat, t: State)
    requires Mains(s, a, m) == Some(s1) && Uncounted(s, s1, a)
    requires s1.pc == StartPolling(i) && Unworked(s1) && PassMade(s1, s1.count, txns, a)
    ensures Mains(s, a, n) == Some(t) && Dealt(s, t, i, a, a.threaded) && PassMade(t, s1.count, txns, a)
  {
    var k;
    k, t := FromThread(s1, i, a, txns);
    ThenDealt(s, s1, t, i, a, a.threaded, m, k);
    n := m + k;
  }

  /** Opening the device. */
  lemma OpenStep(s: State, i: nat, a: Answers) returns (s1: State)
    requires s.pc == StartSource(i) && SlotReady(s, s.count) && a.fd !in s.heap.fds
    requires IsSpi(s.slots[s.count].from) ==> SourceReady(s, s.count)
    ensures StartSourceStep(s, i, EnvAt(a, s.pc)) == Some(s1) && Uncounted(s, s1, a)
    ensures var ok := IsSpi(s.slots[s.count].from) && a.fdOk && a.setUp;
      && s1.pc == (if ok then InitTxn(i, 0) else Prepare(i + 1))
      && (ok ==> SourceReady(s1, s.count) && Opened(s1.heap.spis[SourceOf(s1, s.count)], s.slots[s.count].from))
  {
    s1 := StartSourceStep(s, i, EnvAt(a, s.pc)).value;
  }

  lemma OpenKeeps(s: State, i: nat, a: Answers, b: Bridge) returns (s1: State)
    requires Inv(s) && s.pc == StartSource(i) && Building(s, i, b) && a.fd !in s.heap.fds
    ensures Inv(s1) && MainStep(s, EnvAt(a, s.pc)) == Some(s1) && Uncounted(s, s1, a)
    ensures if IsSpi(b.from) && a.fdOk && a.setUp
      then s1.pc == InitTxn(i, 0) && SourceReady(s1, s1.count)
           && Opened(s1.heap.spis[SourceOf(s1, s1.count)], b.from)
      else s1.pc == Prepare(i + 1)
  {
    SourceAllocated(s);
    s1 := OpenStep(s, i, a);
    StepKeeps(s, s1, Main(EnvAt(a, s.pc)));
  }

  lemma FromOpen(s: State, i: nat, a: Answers, b: Bridge) returns (n: nat, t: State)
    requires Inv(s) && s.pc == StartSource(i) && Building(s, i, b) && a.fd !in s.heap.fds
    ensures var ok := IsSpi(b.from) && a.fdOk && a.setUp && a.threaded;
      && Mains(s, a, n) == Some(t) && Dealt(s, t, i, a, ok)
      && (ok ==> PassMade(t, s.count, b.from.value.transactions, a))
  {
    var s1 := OpenKeeps(s, i, a, b);
    if s1.pc.Prepare? {
      n, t := 1, s1;
      IterateOne(MainAlone(a), s, t);
    } else {
      n, t := FromPass(s1, i, a, b.from);
      StepDealt(s, s1, t, i, a, a.threaded, n);
      n := n + 1;
    }
  }

  lemma SourceAllocated(s: State)
    requires Inv(s) && Progress(s.pc) >= 3
    ensures SlotReady(s, s.count) && (IsSpi(s.slots[s.count].from) ==> SourceReady(s, s.count))
    ensures IsMqtt(s.slots[s.count].to) ==> DestOk(s.heap, s.slots[s.count], SlotRef(s.arrays, s.count))
  {
    assert BuildSlot(s.heap, s.slots[s.count], SlotRef(s.arrays, s.count), Progress(s.pc));
  }

  /** Connecting to the broker. */
  lemma ConnectStep(s: State, i: nat, a: Answers) returns (s1: State)
    requires s.pc == StartDest(i) && SlotReady(s, s.count)
    requires IsMqtt(s.slots[s.count].to) ==> DestOk(s.heap, s.slots[s.count], SlotRef(s.arrays, s.count))
    ensures StartDestStep(s, i, EnvAt(a, s.pc)) == Some(s1) && Uncounted(s, s1, a) && s1.heap.fds == s.heap.fds
    ensures s1.pc == if IsMqtt(s.slots[s.count].to) && a.connected then StartSource(i) else Prepare(i + 1)
  {
    s1 := StartDestStep(s, i, EnvAt(a, s.pc)).value;
  }

  lemma ConnectKeeps(s: State, i: nat, a: Answers, b: Bridge) returns (s1: State)
    requires Inv(s) && s.pc == StartDest(i) && Building(s, i, b)
    ensures Inv(s1) && MainStep(s, EnvAt(a, s.pc)) == Some(s1) && Uncounted(s, s1, a) && s1.heap.fds == s.heap.fds
    ensures if IsMqtt(b.to) && a.connected then s1.pc == StartSource(i) && Building(s1, i, b) else s1.pc == Prepare(i + 1)
  {
    SourceAllocated(s);
    s1 := ConnectStep(s, i, a);
    StepKeeps(s, s1, Main(EnvAt(a, s.pc)));
    if !s1.pc.Prepare? {
      Builds(s1, i);
    }
  }

  lemma FromConnect(s: State, i: nat, a: Answers, b: Bridge) returns (n: nat, t: State)
    requires Inv(s) && s.pc == StartDest(i) && Building(s, i, b) && a.fd !in s.heap.fds
    ensures var ok := IsMqtt(b.to) && a.connected && IsSpi(b.from) && a.fdOk && a.setUp && a.threaded;
      && Mains(s, a, n) == Some(t) && Dealt(s, t, i, a, ok)
      && (ok ==> PassMade(t, s.count, b.from.value.transactions, a))
  {
    var s1 := ConnectKeeps(s, i, a, b);
    if s1.pc.Prepare? {
      n, t := 1, s1;
      IterateOne(MainAlone(a), s, t);
    } else {
      n, t := FromOpen(s1, i, a, b);
      StepDealt(s, s1, t, i, a, IsSpi(b.from) && a.fdOk && a.setUp && a.threaded, n);
      n := n + 1;
    }
  }

  /** The two allocations. */
  lemma AllocSourceTo(s: State, i: nat, a: Answers) returns (s1: State)
    requires s.pc == AllocSource(i) && SlotReady(s, s.count)
    ensures AllocSourceStep(s, i, EnvAt(a, s.pc)) == s1 && Uncounted(s, s1, a) && s1.heap.fds == s.heap.fds
    ensures s1.pc == if IsSpi(s.slots[s.count].from) && !a.sourceAlloc then Prepare(i + 1) else StartDest(i)
  {
    s1 := AllocSourceStep(s, i, EnvAt(a, s.pc));
  }

  lemma AllocSourceKeeps(s: State, i: nat, a: Answers, b: Bridge) returns (s1: State)
    requires Inv(s) && s.pc == AllocSource(i) && Building(s, i, b)
    ensures Inv(s1) && MainStep(s, EnvAt(a, s.pc)) == Some(s1) && Uncounted(s, s1, a) && s1.heap.fds == s.heap.fds
    ensures if (IsSpi(b.from) ==> a.sourceAlloc) then s1.pc == StartDest(i) && Building(s1, i, b) else s1.pc == Prepare(i + 1)
  {
    s1 := AllocSourceTo(s, i, a);
    StepKeeps(s, s1, Main(EnvAt(a, s.pc)));
    if !s1.pc.Prepare? {
      Builds(s1, i);
    }
  }

  lemma FromAllocSource(s: State, i: nat, a: Answers, b: Bridge) returns (n: nat, t: State)
    requires Inv(s) && s.pc == AllocSource(i) && Building(s, i, b) && a.fd !in s.heap.fds
    ensures var ok := a.sourceAlloc && IsMqtt(b.to) && a.connected && IsSpi(b.from) && a.fdOk && a.setUp && a.threaded;
      && Mains(s, a, n) == Some(t) && Dealt(s, t, i, a, ok)
      && (ok ==> PassMade(t, s.count, b.from.value.transactions, a))
  {
    var s1 := AllocSourceKeeps(s, i, a, b);
    if s1.pc.Prepare? {
      n, t := 1, s1;
      IterateOne(MainAlone(a), s, t);
    } else {
      n, t := FromConnect(s1, i, a, b);
      StepDealt(s, s1, t, i, a, IsMqtt(b.to) && a.connected && IsSpi(b.from) && a.fdOk && a.setUp && a.threaded, n);
      n := n + 1;
    }
  }

  lemma AllocDestTo(s: State, i: nat, a: Answers) returns (s1: State)
    requires s.pc == AllocDest(i) && SlotReady(s, s.count)
    ensures AllocDestStep(s, i, EnvAt(a, s.pc)) == s1 && Uncounted(s, s1, a) && s1.heap.fds == s.heap.fds
    ensures s1.pc == if IsMqtt(s.slots[s.count].to) && !a.destAlloc then Prepare(i + 1) else AllocSource(i)
  {
    s1 := AllocDestStep(s, i, EnvAt(a, s.pc));
  }

  lemma AllocDestKeeps(s: State, i: nat, a: Answers, b: Bridge) returns (s1: State)
    requires Inv(s) && s.pc == AllocDest(i) && Building(s, i, b)
    ensures Inv(s1) && MainStep(s, EnvAt(a, s.pc)) == Some(s1) && Uncounted(s, s1, a) && s1.heap.fds == s.heap.fds
    ensures if (IsMqtt(b.to) ==> a.destAlloc) then s1.pc == AllocSource(i) && Building(s1, i, b) else s1.pc == Prepare(i + 1)
  {
    s1 := AllocDestTo(s, i, a);
    StepKeeps(s, s1, Main(EnvAt(a, s.pc)));
    if !s1.pc.Prepare? {
      Builds(s1, i);
    }
  }

  lemma FromAllocDest(s: State, i: nat, a: Answers, b: Bridge) returns (n: nat, t: State)
    requires Inv(s) && s.pc == AllocDest(i) && Building(s, i, b) && a.fd !in s.heap.fds && b.named
    ensures Mains(s, a, n) == Some(t) && Dealt(s, t, i, a, Starts(b, a))
    ensures Starts(b, a) ==> PassMade(t, s.count, b.from.value.transactions, a)
  {
    var s1 := AllocDestKeeps(s, i, a, b);
    if s1.pc.Prepare? {
      n, t := 1, s1;
      IterateOne(MainAlone(a), s, t);
    } else {
      n, t := FromAllocSource(s1, i, a, b);
      StepDealt(s, s1, t, i, a, Starts(b, a), n);
      n := n + 1;
    }
  }

  /** The bridge is looked up. */
  lemma LookUpTo(s: State, i: nat, a: Answers) returns (s1: State)
    requires s.pc == Prepare(i) && SlotReady(s, s.count) && i < |s.config.value|
    ensures PrepareStep(s, i) == s1 && Uncounted(s, s1, a) && s1.heap.fds == s.heap.fds
    ensures var b := s.config.value[i];
      s1.pc == if b.named && b.from.Some? && b.to.Some? then AllocDest(i) else Prepare(i + 1)
  {
    s1 := PrepareStep(s, i);
  }

  lemma LookUpKeeps(s: State, i: nat, a: Answers) returns (s1: State)
    requires Inv(s) && s.pc == Prepare(i) && s.config.Some? && i < |s.config.value|
    ensures Inv(s1) && MainStep(s, EnvAt(a, s.pc)) == Some(s1) && Uncounted(s, s1, a) && s1.heap.fds == s.heap.fds
    ensures var b := s.config.value[i];
      if b.named && b.from.Some? && b.to.Some? then s1.pc == AllocDest(i) && Building(s1, i, b)
      else s1.pc == Prepare(i + 1)
  {
    s1 := LookUpTo(s, i, a);
    StepKeeps(s, s1, Main(EnvAt(a, s.pc)));
    if s1.pc.AllocDest? {
      Builds(s1, i);
    }
  }

  lemma FromPrepare(s: State, i: nat, a: Answers, b: Bridge) returns (n: nat, t: State)
    requires Inv(s) && s.pc == Prepare(i) && s.config.Some? && i < |s.config.value| && b == s.config.value[i]
    requires a.fd !in s.heap.fds
    ensures Mains(s, a, n) == Some(t) && Dealt(s, t, i, a, Starts(b, a))
    ensures Starts(b, a) ==> PassMade(t, s.count, b.from.value.transactions, a)
  {
    var s1 := LookUpKeeps(s, i, a);
    if s1.pc.Prepare? {
      n, t := 1, s1;
      IterateOne(MainAlone(a), s, t);
    } else {
      n, t := FromAllocDest(s1, i, a, b);
      StepDealt(s, s1, t, i, a, Starts(b, a), n);
      n := n + 1;
    }
  }

  /** What becomes of a bridge, for every way its calls can turn out: it is counted, at the end of the started
      ones, with a worker of its own and the initial pass over its list made, if and only if its pair is
      supported and every call succeeds; otherwise count, started bridges and workers are as they were. The
      descriptor the kernel gives is a fresh one. */
  lemma BridgeIsDealtWith(s: State, i: nat, a: Answers) returns (n: nat, t: State)
    requires Reachable(s) && s.pc == Prepare(i) && s.config.Some? && i < |s.config.value| && a.fd !in s.heap.fds
    ensures Mains(s, a, n) == Some(t) && Dealt(s, t, i, a, Starts(s.config.value[i], a)) && Reachable(t)
    ensures Starts(s.config.value[i], a) ==>
      && s.count < |t.slots| && Live(t.heap, t.slots[s.count], SlotRef(t.arrays, s.count), false)
      && Serves(t.slots[s.count], s.config.value[i])
      && PassMade(t, s.count, s.config.value[i].from.value.transactions, a)
  {
    ReachableInv(s);
    n, t := FromPrepare(s, i, a, s.config.value[i]);
    MainsReach(s, t, a, n);
    if Starts(s.config.value[i], a) {
      NewIsLive(t, s.count, i);
    }
  }

  lemma MainsReach(s: State, t: State, a: Answers, n: nat)
    requires Reachable(s) && Mains(s, a, n) == Some(t)
    ensures Reachable(t)
  {
    var es := MainsIsRun(s, a, n);
    RunReaches(s, t, es);
  }

  lemma NewIsLive(t: State, j: nat, i: nat)
    requires Reachable(t) && t.pc.Prepare? && j < t.count && j < |t.started| && t.started[j] == i
    ensures t.config.Some? && i < |t.config.value| && j < |t.slots|
    ensures Live(t.heap, t.slots[j], SlotRef(t.arrays, j), false) && Serves(t.slots[j], t.config.value[i])
  {
    ReachableInv(t);
  }

  // ---- all bridges of a configuration -----------------------------------------------------------------------------

  /** The bridges from `i` on that start. */
  function Starting(bs: seq<Bridge>, answers: nat -> Answers, i: nat): seq<nat>
    decreases |bs| - i
  {
    if i >= |bs| then []
    else (if Starts(bs[i], answers(i)) then [i] else []) + Starting(bs, answers, i + 1)
  }

  /** The kernel gives fresh descriptors. */
  predicate Fresh(fds: set<nat>, answers: nat -> Answers, i: nat, n: nat) {
    && (forall j :: i <= j < n ==> answers(j).fd !in fds)
    && (forall j, k :: i <= j < k < n ==> answers(j).fd != answers(k).fd)
  }

  lemma StillFresh(fds: set<nat>, now: set<nat>, answers: nat -> Answers, i: nat, n: nat)
    requires Fresh(fds, answers, i, n) && i < n && now <= fds + {answers(i).fd}
    ensures Fresh(now, answers, i + 1, n)
  {
  }

  /** Nothing but the running bridges is new. */
  predicate SameRun(s: State, t: State) {
    t.config == s.config && t.stop == s.stop && t.reload == s.reload
  }

  /** From the first bridge to the service loop: exactly the bridges that start are running then, in
      configuration order. */
  lemma {:induction false} AllBridges(s: State, answers: nat -> Answers, i: nat) returns (es: seq<Event>, t: State)
    requires Reachable(s) && s.pc == Prepare(i) && s.config.Some? && i <= |s.config.value|
    requires Fresh(s.heap.fds.Keys, answers, i, |s.config.value|)
    ensures Run(s, es) == Some(t) && t.pc == Service && SameRun(s, t)
    ensures t.started == s.started + Starting(s.config.value, answers, i)
    decreases |if s.config.Some? then s.config.value else []| - i
  {
    if i == |s.config.value| {
      t := Goto(s, Service);
      es := LastBridge(s, i);
      assert s.started + [] == s.started;
    } else {
      var es1, s1 := OneBridge(s, answers(i), i);
      StillFresh(s.heap.fds.Keys, s1.heap.fds.Keys, answers, i, |s.config.value|);
      var es2;
      es2, t := AllBridges(s1, answers, i + 1);
      RunConcat(s, es1, es2);
      es := es1 + es2;
      ConcatAssoc(s.started, if Starts(s.config.value[i], answers(i)) then [i] else [],
                  Starting(s.config.value, answers, i + 1));
    }
  }

  lemma OneBridge(s: State, a: Answers, i: nat) returns (es: seq<Event>, t: State)
    requires Reachable(s) && s.pc == Prepare(i) && s.config.Some? && i < |s.config.value| && a.fd !in s.heap.fds
    ensures Run(s, es) == Some(t) && t.pc == Prepare(i + 1) && SameRun(s, t) && Reachable(t)
    ensures t.started == s.started + (if Starts(s.config.value[i], a) then [i] else [])
    ensures t.heap.fds.Keys <= s.heap.fds.Keys + {a.fd}
  {
    var n;
    n, t := BridgeIsDealtWith(s, i, a);
    es := MainsIsRun(s, a, n);
    assert s.started + [] == s.started;
  }

  lemma LastBridge(s: State, i: nat) returns (es: seq<Event>)
    requires s.pc == Prepare(i) && s.config.Some? && i == |s.config.value|
    ensures Run(s, es) == Some(Goto(s, Service))
  {
    var e := Main(Env(true, true, 0, [], Io(true, true, true, true, []), Net(true, true)));
    es := [e];
    RunOne(s, e, []);
    assert [e] + [] == [e];
  }

  /** A load that succeeds comes to the service loop with the new configuration, running exactly the bridges
      that start. */
  lemma LoadAndRun(s: State, e: Env, e1: Env, answers: nat -> Answers) returns (es: seq<Event>, t: State)
    requires Reachable(s) && s.pc == Load && e.ok && e1.ok && Fresh(s.heap.fds.Keys, answers, 0, |e.config|)
    ensures Run(s, es) == Some(t) && t.pc == Service && t.config == Some(e.config)
    ensures t.started == Starting(e.config, answers, 0) && t.stop == s.stop && t.reload == s.reload
  {
    LoadGoesOn(s, e, e1);
    var es1 := [Main(e), Main(e1)];
    var s1 := Run(s, es1).value;
    RunReaches(s, s1, es1);
    var es2;
    es2, t := AllBridges(s1, answers, 0);
    RunConcat(s, es1, es2);
    es := es1 + es2;
    assert [] + Starting(e.config, answers, 0) == Starting(e.config, answers, 0);
  }

  /** A reload seen in the service loop takes the old bridges down, whatever the environment answers, and a load
      that succeeds then brings up those of the new configuration. */
  lemma ReloadRunsTheNew(
      s: State, env: nat -> Env, io: nat -> Io, net: nat -> Net, e: Env, e1: Env, answers: nat -> Answers)
    returns (es: seq<Event>, t: State)
    requires Reachable(s) && s.pc.Service? && s.reload && !s.stop && e.ok && e1.ok
    requires Fresh(s.heap.fds.Keys, answers, 0, |e.config|)
    ensures Run(s, es) == Some(t) && t.pc == Service && !t.stop
    ensures t.config == Some(e.config) && t.started == Starting(e.config, answers, 0)
  {
    var es1, s1 := ReloadReachesLoad(s, 0, env, io, net);
    var es2;
    es2, t := LoadAndRun(s1, e, e1, answers);
    RunConcat(s, es1, es2);
    es := es1 + es2;
  }

  /** The shipped configuration: one bridge, from a device with one transfer to a broker. */
  function Shipped(): seq<Bridge> {
    var transfer := Txn(Transfer, 2, Some("0xA55A"), Some(2));
    [Bridge(true, Some(Connector(KindSpi, [transfer])), Some(Connector(KindMqtt, [])))]
  }

  /** From the start of the process, with every call succeeding, it comes to run in the service loop. */
  lemma ShippedRuns(e: Env, e1: Env, a: Answers) returns (es: seq<Event>, t: State)
    requires e.ok && e1.ok && e.config == Shipped()
    requires a.destAlloc && a.sourceAlloc && a.connected && a.fdOk && a.setUp && a.threaded
    ensures Run(START, es) == Some(t) && t.pc == Service && t.started == [0] && t.count == 1
    ensures t.count <= |t.slots| && Live(t.heap, t.slots[0], SlotRef(t.arrays, 0), false)
    ensures t.slots[0].source.value in t.workers
  {
    var answers := (j: nat) => a;
    assert Run(START, []) == Some(START);
    es, t := LoadAndRun(START, e, e1, answers);
    OneStarts(e.config, answers);
    RunReaches(START, t, es);
    ServiceRunsWhatStarted(t);
  }

  lemma OneStarts(bs: seq<Bridge>, answers: nat -> Answers)
    requires |bs| == 1 && Starts(bs[0], answers(0))
    ensures Starting(bs, answers, 0) == [0]
  {
    assert Starting(bs, answers, 1) == [];
    assert [0] + [] == [0];
  }
}

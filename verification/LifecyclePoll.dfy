/** What a poll thread does while it is not told to stop: pass after pass over the whole list, each delivered
    buffer carried to its end. */
module LifecyclePoll {
  import opened Basics
  import opened SpiTransaction
  import opened Lifecycle
  import opened LifecycleSafety
  import opened LifecycleTrace

  // ---- one pass ---------------------------------------------------------------------------------------------

  /** How the callback for a buffer ends, when the slot is wired and the handle open. */
  function Fate(payload: seq<byte>, net: Net): Call {
    if net.copyOk then Sent(PREFIX, payload, net.accepted) else Dropped(payload)
  }

  /** The executions of a pass from index `k` to the end of a list of `m`. */
  function PassExecs(k: nat, m: nat, ios: nat -> Io): seq<Exec>
    decreases m - k
  {
    if k >= m then [] else [Exec(k, ios(k))] + PassExecs(k + 1, m, ios)
  }

  /** The callbacks of the same pass. */
  function PassCalls(txns: seq<Txn>, k: nat, ios: nat -> Io, nets: nat -> Net): seq<Call>
    decreases |txns| - k
  {
    if k >= |txns| then []
    else CallOf(Delivered(txns[k], ios(k)), nets(k)) + PassCalls(txns, k + 1, ios, nets)
  }

  function CallOf(d: Option<seq<byte>>, net: Net): seq<Call> {
    if d.Some? then [Fate(d.value, net)] else []
  }

  /** The histories of a runtime after a pass from index `k` on. */
  function AfterPass(spi: Spi, k: nat, ios: nat -> Io, nets: nat -> Net): Spi {
    spi.(execs := spi.execs + PassExecs(k, |spi.transactions|, ios),
         calls := spi.calls + PassCalls(spi.transactions, k, ios, nets))
  }

  /** After one transaction and its callback, if any. */
  function AfterTxn(spi: Spi, k: nat, io: Io, net: Net): Spi
    requires k < |spi.transactions|
  {
    spi.(execs := spi.execs + [Exec(k, io)], calls := spi.calls + CallOf(Delivered(spi.transactions[k], io), net))
  }

  lemma PassSplits(spi: Spi, k: nat, ios: nat -> Io, nets: nat -> Net)
    requires k < |spi.transactions|
    ensures AfterPass(AfterTxn(spi, k, ios(k), nets(k)), k + 1, ios, nets) == AfterPass(spi, k, ios, nets)
  {
    ConcatAssoc(spi.execs, [Exec(k, ios(k))], PassExecs(k + 1, |spi.transactions|, ios));
    ConcatAssoc(spi.calls, CallOf(Delivered(spi.transactions[k], ios(k)), nets(k)),
                PassCalls(spi.transactions, k + 1, ios, nets));
  }

  lemma PassOver(spi: Spi, k: nat, ios: nat -> Io, nets: nat -> Net)
    requires k >= |spi.transactions|
    ensures AfterPass(spi, k, ios, nets) == spi
  {
    assert spi.execs + [] == spi.execs && spi.calls + [] == spi.calls;
  }

  /** A whole pass executes every transaction once, in order. */
  lemma {:induction false} PassExecsAre(k: nat, m: nat, ios: nat -> Io, j: nat)
    requires k + j < m
    ensures |PassExecs(k, m, ios)| == m - k && PassExecs(k, m, ios)[j] == Exec(k + j, ios(k + j))
    decreases m - k
  {
    if k + 1 < m {
      PassExecsAre(k + 1, m, ios, if j > 0 then j - 1 else 0);
    }
  }

  function IosOf(m: nat, ios: nat -> Io): seq<Io> {
    seq(m, k requires 0 <= k < m => ios(k))
  }

  /** While memory lasts and the broker accepts, a pass publishes exactly what it delivers. */
  lemma PassPublishes(txns: seq<Txn>, ios: nat -> Io, nets: nat -> Net)
    requires forall k :: nets(k).copyOk && nets(k).accepted
    ensures Published(PassCalls(txns, 0, ios, nets)) == PassDelivers(txns, IosOf(|txns|, ios))
  {
    PublishesFrom(txns, 0, ios, nets);
    assert [] + Published(PassCalls(txns, 0, ios, nets)) == Published(PassCalls(txns, 0, ios, nets));
    assert txns[..0] == [] && IosOf(0, ios) == [];
  }

  lemma {:induction false} PublishesFrom(txns: seq<Txn>, k: nat, ios: nat -> Io, nets: nat -> Net)
    requires k <= |txns| && forall j :: nets(j).copyOk && nets(j).accepted
    ensures PassDelivers(txns[..k], IosOf(k, ios)) + Published(PassCalls(txns, k, ios, nets)) ==
            PassDelivers(txns, IosOf(|txns|, ios))
    decreases |txns| - k
  {
    if k == |txns| {
      assert txns[..k] == txns;
      NoMore(PassDelivers(txns, IosOf(k, ios)), Published([]));
    } else {
      var d := Delivered(txns[k], ios(k));
      PublishesFrom(txns, k + 1, ios, nets);
      DeliversNext(txns, k, ios);
      PublishedFirst(CallOf(d, nets(k)), PassCalls(txns, k + 1, ios, nets));
      PublishedOne(d, nets(k));
      ConcatAssoc(PassDelivers(txns[..k], IosOf(k, ios)), Optional(d), Published(PassCalls(txns, k + 1, ios, nets)));
    }
  }

  lemma DeliversNext(txns: seq<Txn>, k: nat, ios: nat -> Io)
    requires k < |txns|
    ensures PassDelivers(txns[..k + 1], IosOf(k + 1, ios)) ==
            PassDelivers(txns[..k], IosOf(k, ios)) + Optional(Delivered(txns[k], ios(k)))
  {
    assert txns[..k + 1][..k] == txns[..k] && IosOf(k + 1, ios)[..k] == IosOf(k, ios);
  }

  lemma PublishedOne(d: Option<seq<byte>>, net: Net)
    requires net.copyOk && net.accepted
    ensures Published(CallOf(d, net)) == Optional(d)
  {
    if d.Some? {
      assert CallOf(d, net)[..0] == [];
      assert [] + [d.value] == [d.value];
    }
  }

  lemma {:induction false} PublishedFirst(a: seq<Call>, b: seq<Call>)
    ensures Published(a + b) == Published(a) + Published(b)
    decreases |b|
  {
    if b == [] {
      NoMore(a, b);
      NoMore(Published(a), Published(b));
    } else {
      var n := |b| - 1;
      LastMoved(a, b);
      assert (a + b)[..|a + b| - 1] == a + b[..n];
      PublishedFirst(a, b[..n]);
      ConcatAssoc(Published(a), Published(b[..n]), if b[n].Sent? && b[n].accepted then [b[n].payload] else []);
    }
  }

  // ---- the worker on its own ----------------------------------------------------------------------------------

  /** The transaction a worker is at, for which the environment is asked. */
  function IndexOf(pc: WorkerPc): nat {
    match pc
    case RunTxn(i) => i
    case OnRx(i, _) => i
    case _ => 0
  }

  /** A step of the worker of `sp`, the environment answering by the index of the transaction. */
  function WorkAlone(s: State, sp: nat, ios: nat -> Io, nets: nat -> Net): Option<State> {
    if sp !in s.workers then None
    else WorkerStep(s, sp, ios(IndexOf(s.workers[sp])), nets(IndexOf(s.workers[sp])))
  }

  function Alone(sp: nat, ios: nat -> Io, nets: nat -> Net): State -> Option<State> {
    s => WorkAlone(s, sp, ios, nets)
  }

  /** The state after the worker of `sp` has taken `n` steps, and nobody else any. */
  function Works(s: State, sp: nat, ios: nat -> Io, nets: nat -> Net, n: nat): Option<State> {
    Iterate(Alone(sp, ios, nets), s, n)
  }

  /** Such steps are a run. */
  lemma {:induction false} WorksIsRun(s: State, sp: nat, ios: nat -> Io, nets: nat -> Net, n: nat)
    returns (es: seq<Event>)
    requires Works(s, sp, ios, nets, n).Some?
    ensures |es| == n && Run(s, es) == Works(s, sp, ios, nets, n)
    ensures forall k :: 0 <= k < n ==> es[k].Work? && es[k].spi == sp
    decreases n
  {
    if n == 0 {
      return [];
    }
    var s1, first := WorkEvent(s, sp, ios, nets);
    var rest := WorksIsRun(s1, sp, ios, nets, n - 1);
    RunOne(s, first, rest);
    es := [first] + rest;
  }

  lemma WorkEvent(s: State, sp: nat, ios: nat -> Io, nets: nat -> Net) returns (s1: State, e: Event)
    requires WorkAlone(s, sp, ios, nets).Some?
    ensures WorkAlone(s, sp, ios, nets) == Some(s1) && e.Work? && e.spi == sp && Step(s, e) == Some(s1)
  {
    s1 := WorkAlone(s, sp, ios, nets).value;
    e := Work(sp, ios(IndexOf(s.workers[sp])), nets(IndexOf(s.workers[sp])));
  }

  /** The runtime is open and calls back into a fully wired slot. */
  predicate Wired(s: State, sp: nat) {
    && TransactionSafe(s, sp) && CallbackSafe(s, sp)
    && var slot := s.slots[s.heap.spis[sp].user.value.index]; slot.transform && slot.topicPrefix == PREFIX
  }

  lemma WorkersAreWired(s: State, sp: nat)
    requires Reachable(s) && sp in s.workers
    ensures Wired(s, sp)
  {
    CallbacksAreSafe(s);
    ReachableInv(s);
    HomeFacts(s, sp);
  }

  /** The state with another runtime record and another place of its worker. */
  function Put(s: State, sp: nat, spi: Spi, pc: WorkerPc): State {
    SetPc(SetSpi(s, sp, spi), sp, pc)
  }

  /** Histories apart, a runtime is the same. */
  predicate SameRuntime(a: Spi, b: Spi) {
    a == b.(execs := a.execs, calls := a.calls)
  }

  lemma PutWired(s: State, sp: nat, spi: Spi, pc: WorkerPc)
    requires Wired(s, sp) && SameRuntime(spi, s.heap.spis[sp])
    ensures Wired(Put(s, sp, spi, pc), sp)
  {
  }

  lemma PutPut(s: State, sp: nat, spi: Spi, pc: WorkerPc, spi': Spi, pc': WorkerPc)
    ensures Put(Put(s, sp, spi, pc), sp, spi', pc') == Put(s, sp, spi', pc')
  {
    assert s.heap.spis[sp := spi][sp := spi'] == s.heap.spis[sp := spi'];
    assert s.workers[sp := pc][sp := pc'] == s.workers[sp := pc'];
  }

  lemma CallIsFate(s: State, sp: nat, payload: seq<byte>, net: Net)
    requires Wired(s, sp)
    ensures var spi := s.heap.spis[sp];
      RecordCall(s, sp, payload, net) == SetSpi(s, sp, spi.(calls := spi.calls + [Fate(payload, net)]))
  {
  }

  /** One transaction of a worker, with its callback. */
  lemma WorkTxn(s: State, sp: nat, k: nat, ios: nat -> Io, nets: nat -> Net) returns (n: nat)
    requires Wired(s, sp) && sp in s.workers && s.workers[sp] == RunTxn(k) && k < |s.heap.spis[sp].transactions|
    ensures Works(s, sp, ios, nets, n) == Some(Put(s, sp, AfterTxn(s.heap.spis[sp], k, ios(k), nets(k)), RunTxn(k + 1)))
  {
    var spi := s.heap.spis[sp];
    var d := Delivered(spi.transactions[k], ios(k));
    var ran := spi.(execs := spi.execs + [Exec(k, ios(k))]);
    if d.Some? {
      n := 2;
      var s1 := Put(s, sp, ran, OnRx(k, d.value));
      assert WorkAlone(s, sp, ios, nets) == Some(s1);
      PutWired(s, sp, ran, OnRx(k, d.value));
      WorkCall(s1, sp, k, d.value, ios, nets);
      PutPut(s, sp, ran, OnRx(k, d.value), AfterTxn(spi, k, ios(k), nets(k)), RunTxn(k + 1));
    } else {
      n := 1;
      assert spi.calls + [] == spi.calls;
    }
  }

  lemma WorkCall(s: State, sp: nat, k: nat, payload: seq<byte>, ios: nat -> Io, nets: nat -> Net)
    requires Wired(s, sp) && sp in s.workers && s.workers[sp] == OnRx(k, payload)
    ensures var spi := s.heap.spis[sp];
      Works(s, sp, ios, nets, 1) ==
        Some(Put(s, sp, spi.(calls := spi.calls + [Fate(payload, nets(k))]), RunTxn(k + 1)))
  {
    CallIsFate(s, sp, payload, nets(k));
    var spi := s.heap.spis[sp];
    IterateOne(Alone(sp, ios, nets), s, Put(s, sp, spi.(calls := spi.calls + [Fate(payload, nets(k))]), RunTxn(k + 1)));
  }

  /** The rest of a pass, and the sleep after it. */
  lemma {:induction false} WorkPass(s: State, sp: nat, k: nat, ios: nat -> Io, nets: nat -> Net) returns (n: nat)
    requires Wired(s, sp) && sp in s.workers && s.workers[sp] == RunTxn(k) && k <= |s.heap.spis[sp].transactions|
    ensures Works(s, sp, ios, nets, n) == Some(Put(s, sp, AfterPass(s.heap.spis[sp], k, ios, nets), Test))
    decreases |s.heap.spis[sp].transactions| - k
  {
    var spi := s.heap.spis[sp];
    if k == |spi.transactions| {
      n := 2;
      PassOver(spi, k, ios, nets);
      GoesToSleep(s, sp, k, ios, nets);
    } else {
      var first := WorkTxn(s, sp, k, ios, nets);
      var spi1 := AfterTxn(spi, k, ios(k), nets(k));
      var s1 := Put(s, sp, spi1, RunTxn(k + 1));
      PutWired(s, sp, spi1, RunTxn(k + 1));
      var rest := WorkPass(s1, sp, k + 1, ios, nets);
      IterateThen(Alone(sp, ios, nets), s, first, rest);
      PassSplits(spi, k, ios, nets);
      PutPut(s, sp, spi1, RunTxn(k + 1), AfterPass(spi, k, ios, nets), Test);
      n := first + rest;
    }
  }

  lemma GoesToSleep(s: State, sp: nat, k: nat, ios: nat -> Io, nets: nat -> Net)
    requires Wired(s, sp) && sp in s.workers && s.workers[sp] == RunTxn(k) && k == |s.heap.spis[sp].transactions|
    ensures Works(s, sp, ios, nets, 2) == Some(Put(s, sp, s.heap.spis[sp], Test))
  {
    var spi := s.heap.spis[sp];
    var s1 := Put(s, sp, spi, Sleep);
    assert s.heap.spis[sp := spi] == s.heap.spis;
    assert WorkAlone(s, sp, ios, nets) == Some(s1);
    WakesUp(s1, sp, ios, nets);
    PutPut(s, sp, spi, Sleep, spi, Test);
    assert Works(s, sp, ios, nets, 2) == Works(s1, sp, ios, nets, 1);
  }

  lemma WakesUp(s: State, sp: nat, ios: nat -> Io, nets: nat -> Net)
    requires sp in s.heap.spis && sp in s.workers && s.workers[sp].Sleep?
    ensures Works(s, sp, ios, nets, 1) == Some(Put(s, sp, s.heap.spis[sp], Test))
  {
    assert s.heap.spis[sp := s.heap.spis[sp]] == s.heap.spis;
  }

  /** A worker that is not told to stop makes a whole pass: whatever the environment answers, every transaction
      is executed once and in order, every buffer delivered is carried to its end, and the worker is back where
      it tests the flag; nothing else changes. */
  lemma WorkerPolls(s: State, sp: nat, ios: nat -> Io, nets: nat -> Net) returns (n: nat)
    requires Reachable(s) && sp in s.workers && s.workers[sp].Test? && sp in s.heap.spis && !s.heap.spis[sp].stopFlag
    ensures Works(s, sp, ios, nets, n) == Some(Put(s, sp, AfterPass(s.heap.spis[sp], 0, ios, nets), Test))
  {
    WorkersAreWired(s, sp);
    var spi := s.heap.spis[sp];
    var s1 := Put(s, sp, spi, RunTxn(0));
    assert s.heap.spis[sp := spi] == s.heap.spis;
    assert WorkAlone(s, sp, ios, nets) == Some(s1);
    PutWired(s, sp, spi, RunTxn(0));
    var m := WorkPass(s1, sp, 0, ios, nets);
    IterateOne(Alone(sp, ios, nets), s, s1);
    IterateThen(Alone(sp, ios, nets), s, 1, m);
    PutPut(s, sp, spi, RunTxn(0), AfterPass(spi, 0, ios, nets), Test);
    n := 1 + m;
  }

  /** What is still to come of the pass a worker is in. */
  function RestOfPass(spi: Spi, pc: WorkerPc, ios: nat -> Io, nets: nat -> Net): Spi {
    match pc
    case RunTxn(i) => AfterPass(spi, i, ios, nets)
    case OnRx(i, payload) => AfterPass(spi.(calls := spi.calls + [Fate(payload, nets(i))]), i + 1, ios, nets)
    case _ => spi
  }

  lemma PlaceInList(s: State, sp: nat)
    requires Reachable(s) && sp in s.workers
    ensures sp in s.heap.spis && At(s, sp) <= |s.heap.spis[sp].transactions|
  {
    WorkersAreWired(s, sp);
    ReachableTrace(s);
    assert Traced(s.heap.spis[sp], At(s, sp), Pending(s, sp));
  }

  /** Told or not, a worker that has not exited finishes the pass it is in and tests the flag. */
  lemma WorkerFinishes(s: State, sp: nat, ios: nat -> Io, nets: nat -> Net) returns (n: nat)
    requires Reachable(s) && sp in s.workers && !s.workers[sp].Exited?
    ensures sp in s.heap.spis
    ensures Works(s, sp, ios, nets, n) ==
            Some(Put(s, sp, RestOfPass(s.heap.spis[sp], s.workers[sp], ios, nets), Test))
  {
    WorkersAreWired(s, sp);
    PlaceInList(s, sp);
    match s.workers[sp]
    case Test => n := StaysThere(s, sp, ios, nets);
    case RunTxn(k) => n := WorkPass(s, sp, k, ios, nets);
    case OnRx(k, payload) => n := WorkFromCall(s, sp, k, payload, ios, nets);
    case Sleep =>
      n := 1;
      WakesUp(s, sp, ios, nets);
    case Exited =>
  }

  lemma StaysThere(s: State, sp: nat, ios: nat -> Io, nets: nat -> Net) returns (n: nat)
    requires sp in s.heap.spis && sp in s.workers && s.workers[sp].Test?
    ensures Works(s, sp, ios, nets, n) == Some(Put(s, sp, s.heap.spis[sp], Test))
  {
    n := 0;
    assert s.heap.spis[sp := s.heap.spis[sp]] == s.heap.spis && s.workers[sp := Test] == s.workers;
  }

  lemma WorkFromCall(s: State, sp: nat, k: nat, payload: seq<byte>, ios: nat -> Io, nets: nat -> Net) returns (n: nat)
    requires Wired(s, sp) && sp in s.workers && s.workers[sp] == OnRx(k, payload)
    requires k + 1 <= |s.heap.spis[sp].transactions|
    ensures Works(s, sp, ios, nets, n) ==
            Some(Put(s, sp, RestOfPass(s.heap.spis[sp], s.workers[sp], ios, nets), Test))
  {
    var spi := s.heap.spis[sp];
    var spi1 := spi.(calls := spi.calls + [Fate(payload, nets(k))]);
    var s1 := Put(s, sp, spi1, RunTxn(k + 1));
    WorkCall(s, sp, k, payload, ios, nets);
    PutWired(s, sp, spi1, RunTxn(k + 1));
    var m := WorkPass(s1, sp, k + 1, ios, nets);
    IterateThen(Alone(sp, ios, nets), s, 1, m);
    PutPut(s, sp, spi1, RunTxn(k + 1), AfterPass(spi1, k + 1, ios, nets), Test);
    n := 1 + m;
  }

  /** From any place, a worker that is not told to stop gets one whole pass further, letting it step: it ends
      the pass it is in and makes another one. `before` and `ios` answer for the one and the other. */
  lemma PollingGoesOn(s: State, sp: nat, before: nat -> Io, sent: nat -> Net, ios: nat -> Io, nets: nat -> Net)
    returns (es: seq<Event>)
    requires Reachable(s) && sp in s.workers && !s.workers[sp].Exited?
    requires sp in s.heap.spis && !s.heap.spis[sp].stopFlag
    ensures forall k :: 0 <= k < |es| ==> es[k].Work? && es[k].spi == sp
    ensures var rest := RestOfPass(s.heap.spis[sp], s.workers[sp], before, sent);
      Run(s, es) == Some(Put(s, sp, AfterPass(rest, 0, ios, nets), Test))
  {
    var n := WorkerFinishes(s, sp, before, sent);
    var es1 := WorksIsRun(s, sp, before, sent, n);
    var rest := RestOfPass(s.heap.spis[sp], s.workers[sp], before, sent);
    var s1 := Put(s, sp, rest, Test);
    RunReaches(s, s1, es1);
    var m := WorkerPolls(s1, sp, ios, nets);
    var es2 := WorksIsRun(s1, sp, ios, nets, m);
    RunConcat(s, es1, es2);
    PutPut(s, sp, rest, Test, AfterPass(rest, 0, ios, nets), Test);
    es := es1 + es2;
  }
}

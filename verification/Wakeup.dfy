/**
  Spin-then-park: SpinWaiter.Wait against the producer's publish-and-signal and against
  any number of teardown wakes. Every access in the source is sequentially consistent,
  so one access is one step and the interleavings of these steps are exactly the runs.
*/
module Wakeup {
  import opened Common

  datatype Return = Work(tail: nat) | Shutdown | Cancelled | ReadFailed

  datatype ConsumerPc =
    | Running                       // outside Wait
    | SpinCtx | SpinShutdown | SpinTail
    | Arm                           // C1: store PARKED
    | ArmCtx | ArmShutdown | ArmTail
    | Disarm(ret: Return)           // store AWAKE, then return
    | Blocked                       // in the eventfd read
    | Woken                         // C3: store AWAKE after every wake
    | WokenCtx | WokenShutdown | WokenTail
    | Returning(ret: Return)

  /** Publish is the tail store; Signal loads poison, shutdown and the park word, and
      writes the eventfd when it read PARKED. */
  datatype ProducerPc = Ready | LoadPoison | LoadShutdown | LoadPark | WriteEvent

  /** PoisonFlag.Set runs all four, PoisonFlag.Shutdown starts at the shutdown store. */
  datatype TeardownPc = CasPoison | StoreShutdown | WakeEvent | Finished

  /** `sawClear` records that the current pass of Wait read the shutdown word clear. */
  datatype State = State(
    tail: nat, parked: bool, counter: nat, poison: bool, shutdown: bool, cancelled: bool,
    consumer: ConsumerPc, lastSeen: nat, sawClear: bool,
    producer: ProducerPc, teardowns: seq<TeardownPc>)

  predicate Init(s: State) {
    && !s.parked && s.counter == 0 && !s.poison && !s.shutdown && !s.cancelled
    && s.consumer == Running && s.producer == Ready && s.teardowns == []
  }

  /** The spin half; the budget may run out before any pass. */
  predicate SpinStep(s: State, t: State) {
    match s.consumer
    case SpinCtx =>
      || t == s.(consumer := Arm)
      || t == s.(consumer := if s.cancelled then Returning(Cancelled) else SpinShutdown, sawClear := false)
    case SpinShutdown =>
      t == s.(consumer := if s.shutdown then Returning(Shutdown) else SpinTail, sawClear := !s.shutdown)
    case SpinTail =>
      t == s.(consumer := if s.tail != s.lastSeen then Returning(Work(s.tail)) else SpinCtx)
    case _ => false
  }

  predicate ArmStep(s: State, t: State) {
    match s.consumer
    case Arm => t == s.(parked := true, sawClear := false, consumer := ArmCtx)
    case ArmCtx => t == s.(consumer := if s.cancelled then Disarm(Cancelled) else ArmShutdown)
    case ArmShutdown =>
      t == s.(consumer := if s.shutdown then Disarm(Shutdown) else ArmTail, sawClear := !s.shutdown)
    case ArmTail => t == s.(consumer := if s.tail != s.lastSeen then Disarm(Work(s.tail)) else Blocked)
    case Disarm(ret) => t == s.(parked := false, consumer := Returning(ret))
    case _ => false
  }

  /** A non-semaphore eventfd: a read blocks on zero and drains everything; it may also
      end on the context or a read fault. */
  predicate BlockStep(s: State, t: State) {
    match s.consumer
    case Blocked =>
      || (s.counter > 0 && t == s.(counter := 0, consumer := Woken))
      || (s.cancelled && t == s.(consumer := Disarm(Cancelled)))
      || t == s.(consumer := Disarm(ReadFailed))
    case Woken => t == s.(parked := false, sawClear := false, consumer := WokenCtx)
    case WokenCtx => t == s.(consumer := if s.cancelled then Returning(Cancelled) else WokenShutdown)
    case WokenShutdown =>
      t == s.(consumer := if s.shutdown then Returning(Shutdown) else WokenTail, sawClear := !s.shutdown)
    case WokenTail => t == s.(consumer := if s.tail != s.lastSeen then Returning(Work(s.tail)) else Arm)
    case _ => false
  }

  /** Wait returns, the caller drains what it likes and waits again. */
  predicate CallStep(s: State, t: State) {
    || (s.consumer.Returning? && t == s.(consumer := Running))
    || (s.consumer == Running && t == s.(consumer := SpinCtx, lastSeen := t.lastSeen, sawClear := false))
    || (!s.cancelled && t == s.(cancelled := true))
    || (s.consumer == Running && t == s.(cancelled := false))
  }

  /** A failed wake write poisons the region through a teardown of its own. */
  predicate ProducerStep(s: State, t: State) {
    match s.producer
    case Ready => t == s.(tail := t.tail, producer := LoadPoison)
    case LoadPoison => t == s.(producer := if s.poison then Ready else LoadShutdown)
    case LoadShutdown => t == s.(producer := if s.shutdown then Ready else LoadPark)
    case LoadPark => t == s.(producer := if s.parked then WriteEvent else Ready)
    case WriteEvent =>
      || t == s.(counter := s.counter + 1, producer := Ready)
      || t == s.(teardowns := s.teardowns + [CasPoison], producer := Ready)
  }

  predicate TeardownStep(s: State, t: State, k: nat) {
    && k < |s.teardowns|
    && match s.teardowns[k]
       case CasPoison => t == s.(poison := true, teardowns := s.teardowns[k := StoreShutdown])
       case StoreShutdown => t == s.(shutdown := true, teardowns := s.teardowns[k := WakeEvent])
       case WakeEvent => t == s.(counter := s.counter + 1, teardowns := s.teardowns[k := Finished])
       case Finished => false
  }

  predicate TeardownArrives(s: State, t: State) {
    t == s.(teardowns := s.teardowns + [CasPoison]) || t == s.(teardowns := s.teardowns + [StoreShutdown])
  }

  predicate ConsumerStep(s: State, t: State) {
    SpinStep(s, t) || ArmStep(s, t) || BlockStep(s, t) || CallStep(s, t)
  }

  ghost predicate Next(s: State, t: State) {
    || ConsumerStep(s, t) || ProducerStep(s, t) || TeardownArrives(s, t)
    || exists k :: TeardownStep(s, t, k)
  }

  ghost predicate IsRun(run: seq<State>) {
    |run| > 0 && Init(run[0]) && forall i :: 0 <= i < |run| - 1 ==> Next(run[i], run[i + 1])
  }

  // ---------------------------------------------------------------- invariant

  predicate Owes(s: State, pc: TeardownPc) {
    exists k :: 0 <= k < |s.teardowns| && s.teardowns[k] == pc
  }

  /** The consumer armed, and read both words clear since. */
  predicate Committed(s: State) {
    s.consumer == ArmTail || s.consumer == Blocked
  }

  predicate Armed(pc: ConsumerPc) {
    pc == ArmCtx || pc == ArmShutdown || pc == ArmTail || pc.Disarm? || pc == Blocked || pc == Woken
  }

  predicate ParkInv(s: State) {
    && (s.parked <==> Armed(s.consumer))
    && (s.consumer == ArmTail || s.consumer == Blocked ==> s.sawClear)
    && (s.consumer == SpinTail || s.consumer == WokenTail ==> s.sawClear)
    && (s.consumer.Disarm? && s.consumer.ret.Work? ==> s.sawClear && s.consumer.ret.tail != s.lastSeen)
    && (s.consumer.Returning? && s.consumer.ret.Work? ==> s.sawClear && s.consumer.ret.tail != s.lastSeen)
    && (s.consumer.Disarm? && s.consumer.ret.Shutdown? ==> s.shutdown)
    && (s.consumer.Returning? && s.consumer.ret.Shutdown? ==> s.shutdown)
    && (s.consumer.Disarm? && s.consumer.ret.Cancelled? ==> s.cancelled)
    && (s.consumer.Returning? && s.consumer.ret.Cancelled? ==> s.cancelled)
  }

  predicate TeardownInv(s: State) {
    && (s.poison ==> s.shutdown || Owes(s, StoreShutdown))
    && (Committed(s) && s.shutdown ==> s.counter > 0 || Owes(s, WakeEvent))
  }

  /** Somebody will still write the eventfd, or start a teardown that does. */
  predicate WakeOwed(s: State) {
    s.producer != Ready || Owes(s, CasPoison) || Owes(s, StoreShutdown) || Owes(s, WakeEvent)
  }

  predicate WakeInv(s: State) {
    s.consumer == Blocked && s.tail != s.lastSeen ==> s.counter > 0 || WakeOwed(s)
  }

  predicate Inv(s: State) {
    ParkInv(s) && TeardownInv(s) && WakeInv(s)
  }

  lemma TeardownKeepsInv(s: State, t: State, k: nat)
    requires Inv(s) && TeardownStep(s, t, k)
    ensures Inv(t)
  {
    assert t.teardowns[k] != CasPoison;
    assert t.teardowns[k] == StoreShutdown || t.teardowns[k] == WakeEvent || t.teardowns[k] == Finished;
    assert forall j :: 0 <= j < |s.teardowns| && j != k ==> t.teardowns[j] == s.teardowns[j];
  }

  lemma ArrivalKeepsInv(s: State, t: State, pc: TeardownPc)
    requires Inv(s) && t == s.(teardowns := s.teardowns + [pc])
    ensures Inv(t) && Owes(t, pc)
  {
    assert t.teardowns[|s.teardowns|] == pc;
    assert forall j :: 0 <= j < |s.teardowns| ==> t.teardowns[j] == s.teardowns[j];
  }

  lemma ProducerKeepsInv(s: State, t: State)
    requires Inv(s) && ProducerStep(s, t)
    ensures Inv(t)
  {
    if t.teardowns != s.teardowns {
      ArrivalKeepsInv(s, s.(teardowns := s.teardowns + [CasPoison]), CasPoison);
    }
  }

  lemma SpinKeepsInv(s: State, t: State)
    requires Inv(s) && SpinStep(s, t)
    ensures Inv(t)
  {
  }

  lemma CallKeepsInv(s: State, t: State)
    requires Inv(s) && CallStep(s, t)
    ensures Inv(t)
  {
  }

  lemma ArmKeepsInv(s: State, t: State)
    requires Inv(s) && ArmStep(s, t)
    ensures Inv(t)
  {
  }

  lemma BlockKeepsInv(s: State, t: State)
    requires Inv(s) && BlockStep(s, t)
    ensures Inv(t)
  {
  }

  lemma NextKeepsInv(s: State, t: State)
    requires Inv(s) && Next(s, t)
    ensures Inv(t)
  {
    if k :| TeardownStep(s, t, k) {
      TeardownKeepsInv(s, t, k);
    } else if TeardownArrives(s, t) {
      ArrivalKeepsInv(s, t, if t == s.(teardowns := s.teardowns + [CasPoison]) then CasPoison else StoreShutdown);
    } else if ProducerStep(s, t) {
      ProducerKeepsInv(s, t);
    } else if SpinStep(s, t) {
      SpinKeepsInv(s, t);
    } else if CallStep(s, t) {
      CallKeepsInv(s, t);
    } else if ArmStep(s, t) {
      ArmKeepsInv(s, t);
    } else {
      BlockKeepsInv(s, t);
    }
  }

  lemma {:induction false} Reachable(run: seq<State>, i: nat)
    requires IsRun(run) && i < |run|
    ensures Inv(run[i])
  {
    if i > 0 {
      Reachable(run, i - 1);
      NextKeepsInv(run[i - 1], run[i]);
    }
  }

  // ---------------------------------------------------------------- theorems

  /** No lost wakeup: a consumer asleep on an empty eventfd with work it has not seen is
      asleep only while the producer is still inside its signal or a teardown is running;
      one asleep through a shutdown is owed that teardown's write. */
  lemma NoLostWakeup(run: seq<State>, i: nat)
    requires IsRun(run) && i < |run| && run[i].consumer == Blocked && run[i].counter == 0
    ensures run[i].tail != run[i].lastSeen ==> WakeOwed(run[i])
    ensures run[i].shutdown ==> Owes(run[i], WakeEvent)
  {
    Reachable(run, i);
  }

  /** What the producer does with the rest of its signal when nobody else moves. */
  function FinishSignal(s: State): State
    decreases match s.producer case LoadPoison => 3 case LoadShutdown => 2 case LoadPark => 1 case _ => 0
  {
    match s.producer
    case LoadPoison => FinishSignal(s.(producer := if s.poison then Ready else LoadShutdown))
    case LoadShutdown => FinishSignal(s.(producer := if s.shutdown then Ready else LoadPark))
    case LoadPark => FinishSignal(s.(producer := if s.parked then WriteEvent else Ready))
    case WriteEvent => s.(counter := s.counter + 1, producer := Ready)
    case Ready => s
  }

  /** Without a teardown the debt is the producer's, and paying it wakes the consumer. */
  lemma TheProducerPaysTheWakeup(run: seq<State>, i: nat)
    requires IsRun(run) && i < |run| && run[i].consumer == Blocked && run[i].counter == 0
    requires run[i].tail != run[i].lastSeen && run[i].teardowns == []
    ensures run[i].producer != Ready && FinishSignal(run[i]).counter > 0
  {
    Reachable(run, i);
    var s := run[i];
    assert s.parked && !s.poison && !s.shutdown;
    assert FinishSignal(s.(producer := WriteEvent)).counter > 0;
    assert FinishSignal(s.(producer := LoadPark)).counter > 0;
    assert FinishSignal(s.(producer := LoadShutdown)).counter > 0;
    assert FinishSignal(s.(producer := LoadPoison)).counter > 0;
  }

  /** Every return leaves the park word AWAKE; work is returned only for a tail other than
      lastSeen and after this pass read the shutdown word clear; ErrShutdown only for a
      shutdown that happened, and a context error only for a context that ended. */
  lemma ReturnsAreClean(run: seq<State>, i: nat)
    requires IsRun(run) && i < |run| && run[i].consumer.Returning?
    ensures !run[i].parked
    ensures run[i].consumer.ret.Work? ==> run[i].sawClear && run[i].consumer.ret.tail != run[i].lastSeen
    ensures run[i].consumer.ret.Shutdown? ==> run[i].shutdown
    ensures run[i].consumer.ret.Cancelled? ==> run[i].cancelled
  {
    Reachable(run, i);
  }

  // ---------------------------------------------------------------- what is returned

  /** The consumer is about to load the tail, having read the shutdown word clear. */
  predicate AtTail(pc: ConsumerPc) {
    pc == SpinTail || pc == ArmTail || pc == WokenTail
  }

  predicate AtShutdown(pc: ConsumerPc) {
    pc == SpinShutdown || pc == ArmShutdown || pc == WokenShutdown
  }

  /** Work v is on its way out of Wait. */
  predicate Carrying(pc: ConsumerPc, v: nat) {
    pc == Returning(Work(v)) || pc == Disarm(Work(v))
  }

  /** States j to i belong to one call of Wait. */
  predicate OneCall(run: seq<State>, j: nat, i: nat) {
    && j <= i < |run|
    && forall k :: j <= k <= i ==> run[k].consumer != Running && run[k].lastSeen == run[i].lastSeen
  }

  lemma ProducerLeavesConsumer(s: State, t: State)
    requires ProducerStep(s, t)
    ensures t.consumer == s.consumer && t.lastSeen == s.lastSeen && t.cancelled == s.cancelled
  {
  }

  lemma TeardownLeavesConsumer(s: State, t: State, k: nat)
    requires TeardownStep(s, t, k)
    ensures t.consumer == s.consumer && t.lastSeen == s.lastSeen && t.cancelled == s.cancelled
  {
  }

  lemma NonConsumersLeaveIt(s: State, t: State)
    requires Next(s, t) && !SpinStep(s, t) && !CallStep(s, t) && !ArmStep(s, t) && !BlockStep(s, t)
    ensures t.consumer == s.consumer && t.lastSeen == s.lastSeen && t.cancelled == s.cancelled
  {
    if ProducerStep(s, t) {
      ProducerLeavesConsumer(s, t);
    } else if k :| TeardownStep(s, t, k) {
      TeardownLeavesConsumer(s, t, k);
    }
  }

  lemma SpinCarries(s: State, t: State, v: nat)
    requires SpinStep(s, t) && Carrying(t.consumer, v)
    ensures t.lastSeen == s.lastSeen && (Carrying(s.consumer, v) || (AtTail(s.consumer) && s.tail == v))
  {
  }

  lemma CallCarries(s: State, t: State, v: nat)
    requires CallStep(s, t) && Carrying(t.consumer, v)
    ensures t.lastSeen == s.lastSeen && (Carrying(s.consumer, v) || (AtTail(s.consumer) && s.tail == v))
  {
  }

  lemma ArmCarries(s: State, t: State, v: nat)
    requires ArmStep(s, t) && Carrying(t.consumer, v)
    ensures t.lastSeen == s.lastSeen && (Carrying(s.consumer, v) || (AtTail(s.consumer) && s.tail == v))
  {
  }

  lemma BlockCarries(s: State, t: State, v: nat)
    requires BlockStep(s, t) && Carrying(t.consumer, v)
    ensures t.lastSeen == s.lastSeen && (Carrying(s.consumer, v) || (AtTail(s.consumer) && s.tail == v))
  {
  }

  /** Work being carried was being carried before, or was just loaded from the tail. */
  lemma WorkComesFromTheTail(s: State, t: State, v: nat)
    requires Next(s, t) && Carrying(t.consumer, v)
    ensures t.lastSeen == s.lastSeen && (Carrying(s.consumer, v) || (AtTail(s.consumer) && s.tail == v))
  {
    if SpinStep(s, t) {
      SpinCarries(s, t, v);
    } else if CallStep(s, t) {
      CallCarries(s, t, v);
    } else if ArmStep(s, t) {
      ArmCarries(s, t, v);
    } else if BlockStep(s, t) {
      BlockCarries(s, t, v);
    } else {
      NonConsumersLeaveIt(s, t);
    }
  }

  lemma SpinReachesTail(s: State, t: State)
    requires SpinStep(s, t) && AtTail(t.consumer)
    ensures t.lastSeen == s.lastSeen && (AtTail(s.consumer) || (AtShutdown(s.consumer) && !s.shutdown))
  {
  }

  lemma CallReachesTail(s: State, t: State)
    requires CallStep(s, t) && AtTail(t.consumer)
    ensures t.lastSeen == s.lastSeen && (AtTail(s.consumer) || (AtShutdown(s.consumer) && !s.shutdown))
  {
  }

  lemma ArmReachesTail(s: State, t: State)
    requires ArmStep(s, t) && AtTail(t.consumer)
    ensures t.lastSeen == s.lastSeen && (AtTail(s.consumer) || (AtShutdown(s.consumer) && !s.shutdown))
  {
  }

  lemma BlockReachesTail(s: State, t: State)
    requires BlockStep(s, t) && AtTail(t.consumer)
    ensures t.lastSeen == s.lastSeen && (AtTail(s.consumer) || (AtShutdown(s.consumer) && !s.shutdown))
  {
  }

  /** The tail is loaded only behind a shutdown word that read clear. */
  lemma TailComesAfterClear(s: State, t: State)
    requires Next(s, t) && AtTail(t.consumer)
    ensures t.lastSeen == s.lastSeen && (AtTail(s.consumer) || (AtShutdown(s.consumer) && !s.shutdown))
  {
    if SpinStep(s, t) {
      SpinReachesTail(s, t);
    } else if CallStep(s, t) {
      CallReachesTail(s, t);
    } else if ArmStep(s, t) {
      ArmReachesTail(s, t);
    } else if BlockStep(s, t) {
      BlockReachesTail(s, t);
    } else {
      NonConsumersLeaveIt(s, t);
    }
  }

  /** Moment i stands in the same call as the moment before it, which carried the value too or
      stood at the load of it. */
  predicate Brought(run: seq<State>, i: nat, v: nat)
    requires i < |run|
  {
    && i > 0 && run[i].lastSeen == run[i - 1].lastSeen
    && (Carrying(run[i - 1].consumer, v) || (AtTail(run[i - 1].consumer) && run[i - 1].tail == v))
  }

  lemma CarriedAcross(run: seq<State>, i: nat, v: nat)
    requires IsRun(run) && i < |run| && Carrying(run[i].consumer, v)
    ensures Brought(run, i, v)
  {
    assert i > 0;
    assert Next(run[i - 1], run[i]);
    WorkComesFromTheTail(run[i - 1], run[i], v);
  }

  lemma {:induction false} LoadOf(run: seq<State>, i: nat, v: nat) returns (j: nat)
    requires i < |run| && Carrying(run[i].consumer, v)
    requires forall k :: 0 <= k < |run| && Carrying(run[k].consumer, v) ==> Brought(run, k, v)
    ensures j < i && AtTail(run[j].consumer) && run[j].tail == v && OneCall(run, j, i)
  {
    assert Brought(run, i, v);
    if Carrying(run[i - 1].consumer, v) {
      j := LoadOf(run, i - 1, v);
    } else {
      j := i - 1;
    }
  }

  /** Moment j stands in the same call as the moment before it, which stood with the tail too
      or read the shutdown word clear. */
  predicate Follows(run: seq<State>, j: nat)
    requires j < |run|
  {
    && j > 0 && run[j].lastSeen == run[j - 1].lastSeen
    && (AtTail(run[j - 1].consumer) || (AtShutdown(run[j - 1].consumer) && !run[j - 1].shutdown))
  }

  lemma TailAcross(run: seq<State>, j: nat)
    requires IsRun(run) && j < |run| && AtTail(run[j].consumer)
    ensures Follows(run, j)
  {
    assert j > 0;
    assert Next(run[j - 1], run[j]);
    TailComesAfterClear(run[j - 1], run[j]);
  }

  /** Behind moment h the call stays with the load of the tail, up to j. */
  predicate TailFrom(run: seq<State>, h: nat, j: nat)
    requires h <= j < |run|
  {
    forall k :: h < k <= j ==> AtTail(run[k].consumer)
  }

  lemma TailGrows(run: seq<State>, h: nat, j: nat)
    requires h < j < |run| && OneCall(run, h, j - 1) && TailFrom(run, h, j - 1)
    requires AtTail(run[j].consumer) && run[j].lastSeen == run[j - 1].lastSeen
    ensures OneCall(run, h, j) && TailFrom(run, h, j)
  {
  }

  lemma TailStarts(run: seq<State>, j: nat)
    requires 0 < j < |run| && AtShutdown(run[j - 1].consumer)
    requires AtTail(run[j].consumer) && run[j].lastSeen == run[j - 1].lastSeen
    ensures OneCall(run, j - 1, j) && TailFrom(run, j - 1, j)
  {
  }

  lemma {:induction false} ClearReadOf(run: seq<State>, j: nat) returns (h: nat)
    requires j < |run| && AtTail(run[j].consumer)
    requires forall k :: 0 <= k < |run| && AtTail(run[k].consumer) ==> Follows(run, k)
    ensures h < j && AtShutdown(run[h].consumer) && !run[h].shutdown && OneCall(run, h, j) && TailFrom(run, h, j)
  {
    assert Follows(run, j);
    if AtTail(run[j - 1].consumer) {
      h := ClearReadOf(run, j - 1);
      TailGrows(run, h, j);
    } else {
      h := j - 1;
      TailStarts(run, j);
    }
  }

  /** What Wait returns as work is the tail it loaded: within the same call, at some moment j,
      the tail was v, and it was loaded right behind a read of the shutdown word, at h, that
      found it clear. This holds for all three places that return work. */
  lemma ReturnedWorkWasTheTail(run: seq<State>, i: nat, v: nat) returns (h: nat, j: nat)
    requires IsRun(run) && i < |run| && run[i].consumer == Returning(Work(v))
    ensures h < j < i && OneCall(run, h, i)
    ensures run[j].tail == v && v != run[j].lastSeen && AtTail(run[j].consumer)
    ensures AtShutdown(run[h].consumer) && !run[h].shutdown && TailFrom(run, h, j)
  {
    forall k | 0 <= k < |run| && Carrying(run[k].consumer, v)
      ensures Brought(run, k, v)
    {
      CarriedAcross(run, k, v);
    }
    j := LoadOf(run, i, v);
    forall k | 0 <= k < |run| && AtTail(run[k].consumer)
      ensures Follows(run, k)
    {
      TailAcross(run, k);
    }
    h := ClearReadOf(run, j);
    Reachable(run, i);
    assert run[j].lastSeen == run[i].lastSeen;
  }

  // ---------------------------------------------------------------- no needless wakes

  predicate Untouched(s: State) {
    s.counter == 0 && s.producer != WriteEvent
  }

  lemma SpinStaysUntouched(s: State, t: State)
    requires SpinStep(s, t) && Untouched(s)
    ensures Untouched(t)
  {
  }

  lemma ArmStaysUntouched(s: State, t: State)
    requires ArmStep(s, t) && Untouched(s)
    ensures Untouched(t)
  {
  }

  lemma BlockStaysUntouched(s: State, t: State)
    requires BlockStep(s, t) && Untouched(s)
    ensures Untouched(t)
  {
  }

  lemma CallStaysUntouched(s: State, t: State)
    requires CallStep(s, t) && Untouched(s)
    ensures Untouched(t)
  {
  }

  lemma ConsumerStaysUntouched(s: State, t: State)
    requires ConsumerStep(s, t) && Untouched(s)
    ensures Untouched(t)
  {
    if SpinStep(s, t) {
      SpinStaysUntouched(s, t);
    } else if ArmStep(s, t) {
      ArmStaysUntouched(s, t);
    } else if BlockStep(s, t) {
      BlockStaysUntouched(s, t);
    } else {
      CallStaysUntouched(s, t);
    }
  }

  lemma ProducerStaysUntouched(s: State, t: State)
    requires ProducerStep(s, t) && Untouched(s) && !s.parked
    ensures Untouched(t)
  {
  }

  lemma StaysUntouched(s: State, t: State)
    requires Next(s, t) && Untouched(s) && !s.parked && s.teardowns == []
    ensures Untouched(t)
  {
    if ConsumerStep(s, t) {
      ConsumerStaysUntouched(s, t);
    } else if ProducerStep(s, t) {
      ProducerStaysUntouched(s, t);
    }
  }

  /** While nobody is parked and nothing tears down, publishing costs no wake: the eventfd is
      not written, however often the tail moves. */
  lemma {:induction false} AwakeConsumerCostsNoWake(run: seq<State>, i: nat)
    requires IsRun(run) && i < |run|
    requires forall k :: 0 <= k < i ==> !run[k].parked && run[k].teardowns == []
    ensures Untouched(run[i])
  {
    if i > 0 {
      AwakeConsumerCostsNoWake(run, i - 1);
      assert Next(run[i - 1], run[i]);
      StaysUntouched(run[i - 1], run[i]);
    }
  }
}

/**
  A sleeping consumer does wake: in every endless run that is fair to the producer, to each
  teardown and to the eventfd read, a consumer asleep over unseen work or through a shutdown
  leaves its sleep. Whoever owes the write, and however the debt changes hands, it is paid.
*/
module WakeupLiveness {
  import opened Common
  import opened Endless
  import opened Wakeup

  // ---------------------------------------------------------------- endless runs

  ghost predicate StepsAt(f: nat -> State, k: nat) {
    Next(f(k), f(k + 1))
  }

  predicate Awake(s: State) {
    s.consumer != Blocked
  }

  /** A read that could return does. */
  predicate ReadServedAt(f: nat -> State, j: nat) {
    Awake(f(j)) || f(j).counter == 0 || Awake(f(j + 1))
  }

  predicate ProducerServedAt(f: nat -> State, j: nat) {
    f(j).producer == Ready || ProducerStep(f(j), f(j + 1))
  }

  predicate TeardownServedAt(f: nat -> State, k: nat, j: nat) {
    !Unfinished(f(j), k) || TeardownStep(f(j), f(j + 1), k)
  }

  predicate Unfinished(s: State, k: nat) {
    k < |s.teardowns| && s.teardowns[k] != Finished
  }

  ghost predicate ReadServedFrom(f: nat -> State, i: nat) {
    exists j: nat :: i <= j && ReadServedAt(f, j)
  }

  ghost predicate ProducerServedFrom(f: nat -> State, i: nat) {
    exists j: nat :: i <= j && ProducerServedAt(f, j)
  }

  ghost predicate TeardownServedFrom(f: nat -> State, k: nat, i: nat) {
    exists j: nat :: i <= j && TeardownServedAt(f, k, j)
  }

  /** Nobody who has a step is passed over for ever. */
  ghost predicate FairRun(f: nat -> State) {
    && Init(f(0)) && (forall k: nat :: StepsAt(f, k))
    && (forall i: nat :: ReadServedFrom(f, i))
    && (forall i: nat :: ProducerServedFrom(f, i))
    && (forall k: nat, i: nat :: TeardownServedFrom(f, k, i))
  }

  lemma InvAt(f: nat -> State, k: nat)
    requires FairRun(f)
    ensures Inv(f(k))
  {
    var run := Prefix(f, k);
    forall i | 0 <= i < |run| - 1
      ensures Next(run[i], run[i + 1])
    {
      assert StepsAt(f, i);
    }
    Reachable(run, k);
  }

  // ---------------------------------------------------------------- first moves

  function TeardownAt(s: State, k: nat): Option<TeardownPc> {
    if k < |s.teardowns| then Some(s.teardowns[k]) else None
  }

  lemma SpinLeavesTheRest(s: State, t: State)
    requires SpinStep(s, t)
    ensures t.teardowns == s.teardowns && t.producer == s.producer
    ensures !Awake(s) && !Awake(t) ==> t.counter == s.counter
  {
  }

  lemma ArmLeavesTheRest(s: State, t: State)
    requires ArmStep(s, t)
    ensures t.teardowns == s.teardowns && t.producer == s.producer
    ensures !Awake(s) && !Awake(t) ==> t.counter == s.counter
  {
  }

  lemma BlockLeavesTheRest(s: State, t: State)
    requires BlockStep(s, t)
    ensures t.teardowns == s.teardowns && t.producer == s.producer
    ensures !Awake(s) && !Awake(t) ==> t.counter == s.counter
  {
  }

  lemma CallLeavesTheRest(s: State, t: State)
    requires CallStep(s, t)
    ensures t.teardowns == s.teardowns && t.producer == s.producer
    ensures !Awake(s) && !Awake(t) ==> t.counter == s.counter
  {
  }

  lemma ConsumerLeavesTheRest(s: State, t: State)
    requires ConsumerStep(s, t)
    ensures t.teardowns == s.teardowns && t.producer == s.producer
    ensures !Awake(s) && !Awake(t) ==> t.counter == s.counter
  {
    if SpinStep(s, t) {
      SpinLeavesTheRest(s, t);
    } else if ArmStep(s, t) {
      ArmLeavesTheRest(s, t);
    } else if BlockStep(s, t) {
      BlockLeavesTheRest(s, t);
    } else {
      CallLeavesTheRest(s, t);
    }
  }

  lemma ProducerLeavesTeardowns(s: State, t: State)
    requires ProducerStep(s, t)
    ensures s.teardowns <= t.teardowns && t.counter >= s.counter
  {
  }

  lemma OneTeardownMoves(s: State, t: State, d: nat)
    requires TeardownStep(s, t, d)
    ensures |t.teardowns| == |s.teardowns| && t.counter >= s.counter && t.producer == s.producer
    ensures forall k :: 0 <= k < |s.teardowns| && k != d ==> t.teardowns[k] == s.teardowns[k]
  {
  }

  lemma TeardownStays(s: State, t: State, k: nat)
    requires Next(s, t) && k < |s.teardowns|
    ensures TeardownStep(s, t, k) || TeardownAt(t, k) == TeardownAt(s, k)
  {
    if ConsumerStep(s, t) {
      ConsumerLeavesTheRest(s, t);
    } else if ProducerStep(s, t) {
      ProducerLeavesTeardowns(s, t);
    } else if !TeardownArrives(s, t) {
      var d :| TeardownStep(s, t, d);
      OneTeardownMoves(s, t, d);
    }
  }

  lemma ProducerStays(s: State, t: State)
    requires Next(s, t)
    ensures ProducerStep(s, t) || t.producer == s.producer
  {
    if ConsumerStep(s, t) {
      ConsumerLeavesTheRest(s, t);
    } else if d :| TeardownStep(s, t, d) {
      OneTeardownMoves(s, t, d);
    }
  }

  predicate TeardownMovesAt(f: nat -> State, k: nat, n: nat) {
    k >= |f(n).teardowns| || TeardownStep(f(n), f(n + 1), k)
  }

  lemma TeardownStaysAt(f: nat -> State, k: nat, n: nat)
    requires FairRun(f)
    ensures TeardownMovesAt(f, k, n) || TeardownAt(f(n + 1), k) == TeardownAt(f(n), k)
  {
    assert StepsAt(f, n);
    if k < |f(n).teardowns| {
      TeardownStays(f(n), f(n + 1), k);
    }
  }

  lemma TeardownMoves(f: nat -> State, k: nat, i: nat) returns (m: nat)
    requires FairRun(f) && Unfinished(f(i), k)
    ensures i <= m && TeardownAt(f(m), k) == TeardownAt(f(i), k) && TeardownStep(f(m), f(m + 1), k)
  {
    var value := (n: nat) => TeardownAt(f(n), k);
    var moves := (n: nat) => TeardownMovesAt(f, k, n);
    forall n: nat
      ensures StaysAt(value, moves, n)
    {
      TeardownStaysAt(f, k, n);
    }
    var j := TeardownServed(f, k, i);
    m := FirstMove(value, moves, i, j);
  }

  lemma TeardownServed(f: nat -> State, k: nat, i: nat) returns (j: nat)
    requires FairRun(f)
    ensures i <= j && (Unfinished(f(j), k) ==> TeardownMovesAt(f, k, j))
  {
    assert TeardownServedFrom(f, k, i);
    j :| i <= j && TeardownServedAt(f, k, j);
  }

  predicate ProducerMovesAt(f: nat -> State, n: nat) {
    ProducerStep(f(n), f(n + 1))
  }

  lemma ProducerStaysAt(f: nat -> State, n: nat)
    requires FairRun(f)
    ensures ProducerMovesAt(f, n) || f(n + 1).producer == f(n).producer
  {
    assert StepsAt(f, n);
    ProducerStays(f(n), f(n + 1));
  }

  lemma ProducerServed(f: nat -> State, i: nat) returns (j: nat)
    requires FairRun(f)
    ensures i <= j && (f(j).producer != Ready ==> ProducerMovesAt(f, j))
  {
    assert ProducerServedFrom(f, i);
    j :| i <= j && ProducerServedAt(f, j);
  }

  lemma ProducerMoves(f: nat -> State, i: nat) returns (m: nat)
    requires FairRun(f) && f(i).producer != Ready
    ensures i <= m && f(m).producer == f(i).producer && ProducerStep(f(m), f(m + 1))
  {
    var value := (n: nat) => f(n).producer;
    var moves := (n: nat) => ProducerMovesAt(f, n);
    forall n: nat
      ensures StaysAt(value, moves, n)
    {
      ProducerStaysAt(f, n);
    }
    var j := ProducerServed(f, i);
    m := FirstMove(value, moves, i, j);
  }

  // ---------------------------------------------------------------- debts are paid

  ghost predicate Wakes(f: nat -> State, i: nat) {
    exists n: nat :: i <= n && Awake(f(n))
  }

  lemma Later(f: nat -> State, i: nat, m: nat)
    requires i <= m && Wakes(f, m)
    ensures Wakes(f, i)
  {
    var n: nat :| m <= n && Awake(f(n));
    assert i <= n;
  }

  lemma SleepKeepsCounter(s: State, t: State)
    requires Next(s, t) && !Awake(s) && !Awake(t)
    ensures t.counter >= s.counter
  {
    if ConsumerStep(s, t) {
      ConsumerLeavesTheRest(s, t);
    } else if ProducerStep(s, t) {
      ProducerLeavesTeardowns(s, t);
    } else if d :| TeardownStep(s, t, d) {
      OneTeardownMoves(s, t, d);
    }
  }

  lemma {:induction false} CounterKept(f: nat -> State, i: nat, j: nat)
    requires FairRun(f) && i <= j
    ensures Wakes(f, i) || f(j).counter >= f(i).counter
    decreases j
  {
    if i < j {
      CounterKept(f, i, j - 1);
      assert StepsAt(f, j - 1);
      if !Awake(f(j - 1)) && !Awake(f(j)) {
        SleepKeepsCounter(f(j - 1), f(j));
      }
    }
  }

  /** A written eventfd is read. */
  lemma CounterWakes(f: nat -> State, i: nat)
    requires FairRun(f) && f(i).counter > 0
    ensures Wakes(f, i)
  {
    assert ReadServedFrom(f, i);
    var j: nat :| i <= j && ReadServedAt(f, j);
    CounterKept(f, i, j);
    assert Awake(f(j)) || Awake(f(j + 1)) || f(j).counter == 0;
  }

  function Stage(pc: TeardownPc): nat {
    match pc
    case CasPoison => 3
    case StoreShutdown => 2
    case WakeEvent => 1
    case Finished => 0
  }

  /** A teardown under way writes the eventfd in the end. */
  lemma {:induction false} TeardownWakes(f: nat -> State, k: nat, i: nat)
    requires FairRun(f) && Unfinished(f(i), k)
    ensures Wakes(f, i)
    decreases Stage(f(i).teardowns[k])
  {
    var m := TeardownMoves(f, k, i);
    if f(i).teardowns[k] == WakeEvent {
      CounterWakes(f, m + 1);
    } else {
      TeardownWakes(f, k, m + 1);
    }
    Later(f, i, m + 1);
  }

  /** What a producer inside its signal can do next over a sleeping consumer that nobody else
      owes anything. */
  lemma SignalGoesOn(s: State, t: State)
    requires Inv(s) && !Awake(s) && s.counter == 0 && (forall k: nat :: !Unfinished(s, k))
    requires s.producer != Ready && ProducerStep(s, t)
    ensures t.counter > 0 || Unfinished(t, |s.teardowns|)
            || (t.producer != Ready && Rank(t.producer) < Rank(s.producer))
  {
    forall k | 0 <= k < |s.teardowns|
      ensures s.teardowns[k] == Finished
    {
      assert !Unfinished(s, k);
    }
  }

  function Rank(pc: ProducerPc): nat {
    match pc
    case LoadPoison => 4
    case LoadShutdown => 3
    case LoadPark => 2
    case WriteEvent => 1
    case Ready => 0
  }

  /** A producer inside its signal gets the consumer woken: by its own write, or by the
      teardown that made it stop or that its failed write starts. */
  lemma {:induction false} ProducerWakes(f: nat -> State, i: nat)
    requires FairRun(f) && f(i).producer != Ready
    ensures Wakes(f, i)
    decreases Rank(f(i).producer)
  {
    var m := ProducerMoves(f, i);
    if Awake(f(m)) {
    } else if f(m).counter > 0 {
      CounterWakes(f, m);
      Later(f, i, m);
    } else if k: nat :| Unfinished(f(m), k) {
      TeardownWakes(f, k, m);
      Later(f, i, m);
    } else {
      InvAt(f, m);
      SignalGoesOn(f(m), f(m + 1));
      if f(m + 1).counter > 0 {
        CounterWakes(f, m + 1);
      } else if Unfinished(f(m + 1), |f(m).teardowns|) {
        TeardownWakes(f, |f(m).teardowns|, m + 1);
      } else {
        ProducerWakes(f, m + 1);
      }
      Later(f, i, m + 1);
    }
  }

  // ---------------------------------------------------------------- theorem

  /** No sleep over work, or through a shutdown, lasts: the consumer leaves its read. */
  lemma BlockedConsumerWakes(f: nat -> State, i: nat) returns (n: nat)
    requires FairRun(f) && f(i).consumer == Blocked && (f(i).tail != f(i).lastSeen || f(i).shutdown)
    ensures i < n && f(n).consumer != Blocked
  {
    InvAt(f, i);
    DebtIsPaid(f, i);
    n :| i <= n && Awake(f(n));
  }

  lemma DebtIsPaid(f: nat -> State, i: nat)
    requires FairRun(f) && Inv(f(i)) && f(i).consumer == Blocked
    requires f(i).tail != f(i).lastSeen || f(i).shutdown
    ensures Wakes(f, i)
  {
    var s := f(i);
    if s.counter > 0 {
      CounterWakes(f, i);
    } else if s.producer != Ready {
      ProducerWakes(f, i);
    } else {
      assert Owes(s, CasPoison) || Owes(s, StoreShutdown) || Owes(s, WakeEvent);
      var k :| 0 <= k < |s.teardowns| && s.teardowns[k] != Finished;
      TeardownWakes(f, k, i);
    }
  }

  // ---------------------------------------------------------------- Wait returns

  /** The consumer moves, or is not the one to move. */
  predicate ConsumerServedAt(f: nat -> State, j: nat) {
    f(j).consumer == Blocked || !InWait(f(j)) || f(j + 1).consumer != f(j).consumer
  }

  predicate InWait(s: State) {
    s.consumer != Running && !s.consumer.Returning?
  }

  ghost predicate ConsumerServedFrom(f: nat -> State, i: nat) {
    exists j: nat :: i <= j && ConsumerServedAt(f, j)
  }

  /** Steps left to a return once there is work to see. */
  function StepsLeft(pc: ConsumerPc): nat {
    match pc
    case Blocked => 7
    case SpinCtx => 6
    case Arm | Woken => 5
    case ArmCtx | WokenCtx => 4
    case SpinShutdown | ArmShutdown | WokenShutdown => 3
    case SpinTail | ArmTail | WokenTail => 2
    case Disarm(_) => 1
    case Running | Returning(_) => 0
  }

  predicate Further(s: State, t: State) {
    t.lastSeen == s.lastSeen && t.consumer != Running && StepsLeft(t.consumer) < StepsLeft(s.consumer)
  }

  lemma SpinGoesFurther(s: State, t: State)
    requires SpinStep(s, t) && InWait(s) && s.tail != s.lastSeen && t.consumer != s.consumer
    ensures Further(s, t)
  {
  }

  lemma ArmGoesFurther(s: State, t: State)
    requires ArmStep(s, t) && InWait(s) && s.tail != s.lastSeen && t.consumer != s.consumer
    ensures Further(s, t)
  {
  }

  lemma SleeperGoesFurther(s: State, t: State)
    requires BlockStep(s, t) && s.consumer == Blocked && t.consumer != Blocked
    ensures Further(s, t)
  {
  }

  lemma WokenGoesFurther(s: State, t: State)
    requires BlockStep(s, t) && s.consumer != Blocked && s.tail != s.lastSeen
    ensures Further(s, t)
  {
  }

  lemma CallLeavesWaiter(s: State, t: State)
    requires CallStep(s, t) && InWait(s)
    ensures t.consumer == s.consumer && t.lastSeen == s.lastSeen
  {
  }

  /** Over work every move of the consumer brings it closer to its return: the spin ends, the
      arm re-check and the wake re-check find the work, and it does not go back to sleep. */
  lemma MovesGoFurther(s: State, t: State)
    requires Next(s, t) && InWait(s) && s.tail != s.lastSeen && t.consumer != s.consumer
    ensures Further(s, t)
  {
    if SpinStep(s, t) {
      SpinGoesFurther(s, t);
    } else if ArmStep(s, t) {
      ArmGoesFurther(s, t);
    } else if BlockStep(s, t) {
      if s.consumer == Blocked {
        SleeperGoesFurther(s, t);
      } else {
        WokenGoesFurther(s, t);
      }
    } else if CallStep(s, t) {
      CallLeavesWaiter(s, t);
    } else {
      NonConsumersLeaveIt(s, t);
    }
  }

  predicate ConsumerMovesAt(f: nat -> State, n: nat) {
    f(n + 1).consumer != f(n).consumer
  }

  /** Nobody else touches lastSeen, and the consumer does not while it waits. */
  lemma LastSeenStays(s: State, t: State)
    requires Next(s, t) && InWait(s) && t.consumer == s.consumer
    ensures t.lastSeen == s.lastSeen
  {
    if CallStep(s, t) {
    } else if SpinStep(s, t) {
    } else if ArmStep(s, t) {
    } else if BlockStep(s, t) {
    } else {
      NonConsumersLeaveIt(s, t);
    }
  }

  lemma {:induction false} SameCall(f: nat -> State, i: nat, m: nat)
    requires FairRun(f) && i <= m && InWait(f(i)) && forall k: nat :: i <= k <= m ==> f(k).consumer == f(i).consumer
    ensures f(m).lastSeen == f(i).lastSeen
    decreases m
  {
    if i < m {
      SameCall(f, i, m - 1);
      assert StepsAt(f, m - 1);
      LastSeenStays(f(m - 1), f(m));
    }
  }

  /** A time by which the consumer has moved, or is about to. */
  lemma ConsumerServed(f: nat -> State, i: nat) returns (j: nat)
    requires FairRun(f) && (forall k: nat :: ConsumerServedFrom(f, k))
    requires InWait(f(i)) && f(i).tail != f(i).lastSeen
    ensures i <= j && (f(j).consumer == f(i).consumer ==> ConsumerMovesAt(f, j))
  {
    if f(i).consumer == Blocked {
      j := BlockedConsumerWakes(f, i);
    } else {
      assert ConsumerServedFrom(f, i);
      j :| i <= j && ConsumerServedAt(f, j);
    }
  }

  /** The first move from i on; until then the program counter stands still. */
  lemma {:induction false} NextMove(f: nat -> State, i: nat, j: nat) returns (m: nat)
    requires i <= j && (f(j).consumer == f(i).consumer ==> ConsumerMovesAt(f, j))
    ensures i <= m && ConsumerMovesAt(f, m) && forall k: nat :: i <= k <= m ==> f(k).consumer == f(i).consumer
    decreases j - i
  {
    if i == j || ConsumerMovesAt(f, i) {
      m := i;
    } else {
      m := NextMove(f, i + 1, j);
    }
  }

  /** In a fair run a Wait over work returns: for as long as the tail stays other than the
      caller's lastSeen, which a tail that only grows always does. */
  lemma {:induction false} WaitReturns(f: nat -> State, i: nat) returns (n: nat)
    requires FairRun(f) && (forall k: nat :: ConsumerServedFrom(f, k))
    requires f(i).consumer != Running && forall k: nat :: i <= k ==> f(k).tail != f(i).lastSeen
    ensures i <= n && f(n).consumer.Returning? && f(n).lastSeen == f(i).lastSeen
    decreases StepsLeft(f(i).consumer)
  {
    if f(i).consumer.Returning? {
      n := i;
    } else {
      var j := ConsumerServed(f, i);
      var m := NextMove(f, i, j);
      SameCall(f, i, m);
      assert StepsAt(f, m);
      MovesGoFurther(f(m), f(m + 1));
      n := WaitReturns(f, m + 1);
    }
  }

  // ---------------------------------------------------------------- cancellation

  /** A consumer that can move does; asleep it can move once its context is cancelled. */
  predicate CancelServedAt(f: nat -> State, j: nat) {
    !InWait(f(j)) || (f(j).consumer == Blocked && !f(j).cancelled) || ConsumerMovesAt(f, j)
  }

  ghost predicate CancelServedFrom(f: nat -> State, i: nat) {
    exists j: nat :: i <= j && CancelServedAt(f, j)
  }

  /** Steps left to a return once the context is cancelled. */
  function CancelLeft(pc: ConsumerPc): nat {
    match pc
    case SpinShutdown => 6
    case SpinTail | ArmShutdown | WokenShutdown => 5
    case SpinCtx | ArmTail | WokenTail => 4
    case Arm | Blocked => 3
    case ArmCtx | Woken => 2
    case Disarm(_) | WokenCtx => 1
    case Running | Returning(_) => 0
  }

  predicate CloserToReturn(s: State, t: State) {
    t.cancelled && t.consumer != Running && CancelLeft(t.consumer) < CancelLeft(s.consumer)
  }

  lemma SpinHeedsCancel(s: State, t: State)
    requires SpinStep(s, t) && s.cancelled
    ensures CloserToReturn(s, t)
  {
  }

  lemma ArmHeedsCancel(s: State, t: State)
    requires ArmStep(s, t) && s.cancelled
    ensures CloserToReturn(s, t)
  {
  }

  lemma BlockHeedsCancel(s: State, t: State)
    requires BlockStep(s, t) && s.cancelled
    ensures CloserToReturn(s, t)
  {
  }

  /** Under a cancelled context every move of a Wait brings it closer to its return. */
  lemma WaitHeedsCancel(s: State, t: State)
    requires Next(s, t) && InWait(s) && s.cancelled
    ensures t.cancelled && (t.consumer == s.consumer || CloserToReturn(s, t))
  {
    if SpinStep(s, t) {
      SpinHeedsCancel(s, t);
    } else if ArmStep(s, t) {
      ArmHeedsCancel(s, t);
    } else if BlockStep(s, t) {
      BlockHeedsCancel(s, t);
    } else if CallStep(s, t) {
      CallLeavesWaiter(s, t);
    } else {
      NonConsumersLeaveIt(s, t);
    }
  }

  lemma {:induction false} CancelStays(f: nat -> State, i: nat, m: nat)
    requires (forall k: nat :: StepsAt(f, k)) && i <= m && InWait(f(i)) && f(i).cancelled
    requires forall k: nat :: i <= k <= m ==> f(k).consumer == f(i).consumer
    ensures f(m).cancelled
    decreases m
  {
    if i < m {
      CancelStays(f, i, m - 1);
      assert StepsAt(f, m - 1);
      WaitHeedsCancel(f(m - 1), f(m));
    }
  }

  lemma {:induction false} CancelServed(f: nat -> State, i: nat, j: nat) returns (m: nat)
    requires (forall k: nat :: StepsAt(f, k)) && i <= j && CancelServedAt(f, j)
    requires InWait(f(i)) && f(i).cancelled
    ensures i <= m && ConsumerMovesAt(f, m) && forall k: nat :: i <= k <= m ==> f(k).consumer == f(i).consumer
    decreases j - i
  {
    if i == j || ConsumerMovesAt(f, i) {
      m := i;
    } else {
      assert StepsAt(f, i);
      WaitHeedsCancel(f(i), f(i + 1));
      m := CancelServed(f, i + 1, j);
    }
  }

  /** A Wait whose context is cancelled returns, with or without work, wherever it stands. */
  lemma {:induction false} CancelledWaitReturns(f: nat -> State, i: nat) returns (n: nat)
    requires (forall k: nat :: StepsAt(f, k)) && (forall k: nat :: CancelServedFrom(f, k))
    requires f(i).consumer != Running && f(i).cancelled
    ensures i <= n && f(n).consumer.Returning?
    decreases CancelLeft(f(i).consumer)
  {
    if f(i).consumer.Returning? {
      n := i;
    } else {
      assert CancelServedFrom(f, i);
      var j :| i <= j && CancelServedAt(f, j);
      var m := CancelServed(f, i, j);
      CancelStays(f, i, m);
      assert StepsAt(f, m);
      WaitHeedsCancel(f(m), f(m + 1));
      n := CancelledWaitReturns(f, m + 1);
    }
  }
}

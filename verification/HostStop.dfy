/**
  What a Stop reports, and that it does report: nil exactly when nothing went wrong on its
  way, and nil in the end whenever its supervisors join and its budget lasts.
*/
module HostStop {
  import opened Common
  import opened Endless
  import opened HostModel
  import opened HostTheorems

  // ---------------------------------------------------------------- what went wrong

  /** The steps a Stop reports an error for: its budget ended while it waited for its turn,
      for a supervisor, or for the release of the workers. */
  predicate Faulty(s: State, t: State, x: StopId) {
    GivesUpTurn(s, t, x) || NextExpires(s, t, x) || GivesUpRelease(s, t, x)
  }

  predicate FaultAt(run: seq<State>, x: StopId, k: nat) {
    k + 1 < |run| && Faulty(run[k], run[k + 1], x)
  }

  /** Some step before state i was a fault of this Stop. */
  predicate FaultBefore(run: seq<State>, x: StopId, i: nat) {
    exists k :: 0 <= k < i && FaultAt(run, x, k)
  }

  /** What the program counter remembers of it. */
  predicate Remembers(pc: StopPc, faulted: bool) {
    match pc
    case Arrived => !faulted
    case WaitTurn(_) => !faulted
    case Joining(_, unjoined) => unjoined != [] <==> faulted
    case Tearing(_, _, unjoined) => unjoined != [] <==> faulted
    case Retaining(unjoined) => unjoined != [] && faulted
    case Watching(_) => faulted
    case Release(failed) => failed == faulted
    case RunRelease(failed) => failed == faulted
    case AwaitRelease(failed, _) => failed == faulted
    case Ending(failed) => failed == faulted
    case HandOn(failed) => failed == faulted
    case Returned(ok) => ok == !faulted
  }

  predicate OwnStep(s: State, t: State, x: StopId) {
    TurnStep(s, t, x) || JoinStep(s, t, x) || ReleaseStep(s, t, x)
  }

  /** Who took the step. */
  lemma Who(s: State, t: State)
    requires Next(s, t)
    ensures StartStep(s, t) || (exists y :: OwnStep(s, t, y)) || exists r :: RuntimeStep(s, t, r)
  {
    if y :| TurnStep(s, t, y) || JoinStep(s, t, y) || ReleaseStep(s, t, y) {
      assert OwnStep(s, t, y);
    }
  }

  lemma TurnRemembers(s: State, t: State, x: StopId, faulted: bool)
    requires TurnStep(s, t, x) && x in s.turn.stops && Remembers(s.turn.stops[x], faulted)
    ensures x in t.turn.stops && Remembers(t.turn.stops[x], faulted || Faulty(s, t, x))
  {
  }

  predicate SupervisorWait(s: State, t: State, x: StopId) {
    NextJoins(s, t, x) || NextExpires(s, t, x) || JoiningDone(s, t, x)
  }

  lemma WaitRemembers(s: State, t: State, x: StopId, faulted: bool)
    requires SupervisorWait(s, t, x) && Remembers(s.turn.stops[x], faulted)
    ensures x in t.turn.stops && Remembers(t.turn.stops[x], faulted || Faulty(s, t, x))
  {
  }

  lemma TearRemembers(s: State, t: State, x: StopId, faulted: bool)
    requires JoinStep(s, t, x) && !SupervisorWait(s, t, x) && Remembers(s.turn.stops[x], faulted)
    ensures x in t.turn.stops && Remembers(t.turn.stops[x], faulted || Faulty(s, t, x))
  {
  }

  lemma JoinRemembers(s: State, t: State, x: StopId, faulted: bool)
    requires JoinStep(s, t, x) && Remembers(s.turn.stops[x], faulted)
    ensures x in t.turn.stops && Remembers(t.turn.stops[x], faulted || Faulty(s, t, x))
  {
    if SupervisorWait(s, t, x) {
      WaitRemembers(s, t, x, faulted);
    } else {
      TearRemembers(s, t, x, faulted);
    }
  }

  lemma ReleaseRemembers(s: State, t: State, x: StopId, faulted: bool)
    requires ReleaseStep(s, t, x) && Remembers(s.turn.stops[x], faulted)
    ensures x in t.turn.stops && Remembers(t.turn.stops[x], faulted || Faulty(s, t, x))
  {
  }

  lemma OthersLeaveStop(s: State, t: State, x: StopId, y: StopId)
    requires OwnStep(s, t, y) && x != y && x in s.turn.stops
    ensures x in t.turn.stops && t.turn.stops[x] == s.turn.stops[x]
  {
  }

  lemma StartLeavesStops(s: State, t: State)
    requires StartStep(s, t)
    ensures t.turn == s.turn && t.workers == s.workers
  {
  }

  lemma RuntimesLeaveStops(s: State, t: State, r: RuntimeId)
    requires RuntimeStep(s, t, r)
    ensures t.turn == s.turn && t.start == s.start
  {
  }

  /** A Stop's program counter moves by its own step or not at all. */
  lemma StopMovesItself(s: State, t: State, x: StopId)
    requires Next(s, t) && x in s.turn.stops
    ensures x in t.turn.stops && (OwnStep(s, t, x) || t.turn.stops[x] == s.turn.stops[x])
  {
    Who(s, t);
    if StartStep(s, t) {
      StartLeavesStops(s, t);
    } else if y :| OwnStep(s, t, y) {
      if y != x {
        OthersLeaveStop(s, t, x, y);
      } else {
        OwnStepKeepsIt(s, t, x);
      }
    } else {
      var r :| RuntimeStep(s, t, r);
      RuntimesLeaveStops(s, t, r);
    }
  }

  lemma OwnStepKeepsIt(s: State, t: State, x: StopId)
    requires OwnStep(s, t, x)
    ensures x in t.turn.stops
  {
  }

  lemma FaultMovesIt(s: State, t: State, x: StopId)
    requires Faulty(s, t, x)
    ensures x in s.turn.stops && x in t.turn.stops && t.turn.stops[x] != s.turn.stops[x]
  {
  }

  lemma StepRemembers(s: State, t: State, x: StopId, faulted: bool)
    requires Next(s, t) && x in s.turn.stops && Remembers(s.turn.stops[x], faulted)
    ensures x in t.turn.stops && Remembers(t.turn.stops[x], faulted || Faulty(s, t, x))
  {
    StopMovesItself(s, t, x);
    if t.turn.stops[x] == s.turn.stops[x] {
      if Faulty(s, t, x) {
        FaultMovesIt(s, t, x);
      }
    } else if TurnStep(s, t, x) {
      TurnRemembers(s, t, x, faulted);
    } else if JoinStep(s, t, x) {
      JoinRemembers(s, t, x, faulted);
    } else {
      ReleaseRemembers(s, t, x, faulted);
    }
  }

  lemma NewStopArrives(s: State, t: State, x: StopId)
    requires Next(s, t) && x !in s.turn.stops && x in t.turn.stops
    ensures t.turn.stops[x] == Arrived
  {
    Who(s, t);
    if StartStep(s, t) {
      StartLeavesStops(s, t);
    } else if y :| OwnStep(s, t, y) {
      OnlyArrivalsAreNew(s, t, x, y);
    } else {
      var r :| RuntimeStep(s, t, r);
      RuntimesLeaveStops(s, t, r);
    }
  }

  lemma OnlyArrivalsAreNew(s: State, t: State, x: StopId, y: StopId)
    requires OwnStep(s, t, y) && x !in s.turn.stops && x in t.turn.stops
    ensures t.turn.stops[x] == Arrived
  {
  }

  lemma {:induction false} RunRemembers(run: seq<State>, x: StopId, i: nat)
    requires IsRun(run) && i < |run|
    ensures if x in run[i].turn.stops then Remembers(run[i].turn.stops[x], FaultBefore(run, x, i))
            else !FaultBefore(run, x, i)
  {
    if i > 0 {
      RunRemembers(run, x, i - 1);
      var s, t := run[i - 1], run[i];
      assert Next(s, t);
      assert FaultBefore(run, x, i) <==> FaultBefore(run, x, i - 1) || FaultAt(run, x, i - 1);
      if x in s.turn.stops {
        StepRemembers(s, t, x, FaultBefore(run, x, i - 1));
      } else if x in t.turn.stops {
        NewStopArrives(s, t, x);
      }
    }
  }

  /** A Stop returns nil exactly when it never gave up: not its turn, not a supervisor, not
      the release of the workers. */
  lemma StopReturnsNilExactlyWithoutFault(run: seq<State>, x: StopId, i: nat)
    requires IsRun(run) && i < |run| && x in run[i].turn.stops && run[i].turn.stops[x].Returned?
    ensures run[i].turn.stops[x].ok <==> !FaultBefore(run, x, i)
  {
    RunRemembers(run, x, i);
  }

  // ---------------------------------------------------------------- endless runs

  ghost predicate StepsAt(f: nat -> State, k: nat) {
    Next(f(k), f(k + 1))
  }

  ghost predicate HeldFrom(f: nat -> State, j: nat) {
    forall n: nat :: j <= n ==> !MutexFree(f(n))
  }

  function PcAt(s: State, x: StopId): StopPc {
    if x in s.turn.stops then s.turn.stops[x] else Arrived
  }

  /** The Stop has a step, but for the mutex. */
  predicate Wants(s: State, x: StopId) {
    match PcAt(s, x)
    case WaitTurn(owner) => owner in s.turn.handedOn
    case Joining(todo, _) => todo == [] || todo[0] in s.reg.joined
    case Tearing(r, _, _) => r in s.reg.once && s.reg.once[r] == Complete
    case AwaitRelease(_, claimed) => claimed ==> s.workers.finished
    case Returned(_) => false
    case _ => true
  }

  predicate StopMovesAt(f: nat -> State, x: StopId, n: nat) {
    PcAt(f(n + 1), x) != PcAt(f(n), x)
  }

  function OnceAt(s: State, r: RuntimeId): Option<OncePc> {
    if r in s.reg.once then Some(s.reg.once[r]) else None
  }

  /** Somebody is in the once-guarded teardown of r, or stands before it. */
  predicate TearWanted(s: State, x: StopId, r: RuntimeId) {
    match OnceAt(s, r)
    case None => PcAt(s, x).Tearing? && PcAt(s, x).rt == r
    case Some(pc) => pc != Complete
  }

  predicate TearMovesAt(f: nat -> State, r: RuntimeId, n: nat) {
    OnceAt(f(n + 1), r) != OnceAt(f(n), r)
  }

  ghost predicate StartServedFrom(f: nat -> State, i: nat) {
    exists j: nat :: i <= j && StartServedAt(f, j)
  }

  predicate StartServedAt(f: nat -> State, j: nat) {
    f(j).start == NoStart || f(j + 1).start != f(j).start
  }

  ghost predicate StopServedAt(f: nat -> State, x: StopId, j: nat) {
    !Wants(f(j), x) || StopMovesAt(f, x, j) || HeldFrom(f, j)
  }

  ghost predicate StopServedFrom(f: nat -> State, x: StopId, i: nat) {
    exists j: nat :: i <= j && StopServedAt(f, x, j)
  }

  ghost predicate TearServedAt(f: nat -> State, x: StopId, r: RuntimeId, j: nat) {
    !TearWanted(f(j), x, r) || TearMovesAt(f, r, j) || HeldFrom(f, j)
  }

  ghost predicate TearServedFrom(f: nat -> State, x: StopId, r: RuntimeId, i: nat) {
    exists j: nat :: i <= j && TearServedAt(f, x, r, j)
  }

  /** A watcher that claimed the release runs it to its end. */
  predicate ReleaseServedAt(f: nat -> State, r: RuntimeId, j: nat) {
    !Releasing(f(j), r) || !Releasing(f(j + 1), r)
  }

  predicate Releasing(s: State, r: RuntimeId) {
    r in s.reg.watchers && s.reg.watchers[r] == WatchRunRelease
  }

  ghost predicate ReleaseServedFrom(f: nat -> State, r: RuntimeId, i: nat) {
    exists j: nat :: i <= j && ReleaseServedAt(f, r, j)
  }

  /** Fair to Start, to every Stop, to every teardown and to the watchers: nobody who has a
      step is passed over for ever, nor kept for ever from a mutex that others release. */
  ghost predicate FairRun(f: nat -> State) {
    && Init(f(0)) && (forall k: nat :: StepsAt(f, k))
    && (forall i: nat :: StartServedFrom(f, i))
    && (forall x: StopId, i: nat :: StopServedFrom(f, x, i))
    && (forall x: StopId, r: RuntimeId, i: nat :: TearServedFrom(f, x, r, i))
    && (forall r: RuntimeId, i: nat :: ReleaseServedFrom(f, r, i))
  }

  ghost predicate JoinsLater(f: nat -> State, r: RuntimeId) {
    exists m: nat :: r in f(m).reg.joined
  }

  ghost predicate SupervisorsJoin(f: nat -> State) {
    forall n: nat, r: RuntimeId :: r in f(n).reg.names ==> JoinsLater(f, r)
  }

  lemma PrefixIsARun(f: nat -> State, k: nat)
    requires FairRun(f)
    ensures IsRun(Prefix(f, k))
  {
    var run := Prefix(f, k);
    forall i | 0 <= i < |run| - 1
      ensures Next(run[i], run[i + 1])
    {
      assert StepsAt(f, i);
    }
  }

  lemma InvAt(f: nat -> State, k: nat)
    requires FairRun(f)
    ensures Inv(f(k)) && ClaimerInv(f(k))
  {
    PrefixIsARun(f, k);
    Reachable(Prefix(f, k), k);
    ReleaseHasAClaimer(Prefix(f, k), k);
  }

  // ---------------------------------------------------------------- the mutex

  function StartWork(pc: StartPc): nat {
    match pc
    case NoStart => 0
    case Starting(todo) => 4 * |todo| + 1
    case Awaiting(_, todo) => 4 * |todo| + 4
    case Abandoning(_, todo) => 4 * |todo| + 3
    case Selecting(_, todo) => 4 * |todo| + 2
  }

  lemma StartShrinks(s: State, t: State)
    requires StartStep(s, t) && s.start != NoStart
    ensures StartWork(t.start) < StartWork(s.start)
  {
  }

  lemma OnlyStartMovesIt(s: State, t: State)
    requires Next(s, t) && t.start != s.start
    ensures StartStep(s, t)
  {
    if !StartStep(s, t) {
      Who(s, t);
      if y :| OwnStep(s, t, y) {
        StopsLeaveStart(s, t, y);
      } else {
        var r :| RuntimeStep(s, t, r);
        RuntimesLeaveStops(s, t, r);
      }
    }
  }

  lemma StopsLeaveStart(s: State, t: State, y: StopId)
    requires OwnStep(s, t, y)
    ensures t.start == s.start
  {
  }

  predicate StartMovesAt(f: nat -> State, k: nat) {
    f(k + 1).start != f(k).start
  }

  lemma StartMoves(f: nat -> State, i: nat) returns (m: nat)
    requires FairRun(f) && f(i).start != NoStart
    ensures i <= m && f(m).start == f(i).start && StartMovesAt(f, m)
  {
    var value := (k: nat) => f(k).start;
    var moves := (k: nat) => StartMovesAt(f, k);
    assert forall k: nat :: StaysAt(value, moves, k);
    assert StartServedFrom(f, i);
    var j: nat :| i <= j && StartServedAt(f, j);
    m := FirstMove(value, moves, i, j);
  }

  lemma StartMoveShrinks(f: nat -> State, m: nat)
    requires FairRun(f) && f(m).start != NoStart && StartMovesAt(f, m)
    ensures StartWork(f(m + 1).start) < StartWork(f(m).start)
  {
    assert StepsAt(f, m);
    OnlyStartMovesIt(f(m), f(m + 1));
    StartShrinks(f(m), f(m + 1));
  }

  lemma {:induction false} MutexComesFree(f: nat -> State, i: nat) returns (n: nat)
    requires FairRun(f)
    ensures i <= n && MutexFree(f(n))
    decreases StartWork(f(i).start)
  {
    if f(i).start == NoStart {
      n := i;
    } else {
      var m := StartMoves(f, i);
      StartMoveShrinks(f, m);
      n := MutexComesFree(f, m + 1);
    }
  }

  lemma NeverHeldForGood(f: nat -> State, j: nat)
    requires FairRun(f)
    ensures !HeldFrom(f, j)
  {
    var n := MutexComesFree(f, j);
  }

  // ---------------------------------------------------------------- who moves when

  /** Where the Stop has a step for as long as it stands still, it moves. */
  lemma WantingStopMoves(f: nat -> State, x: StopId, i: nat) returns (m: nat)
    requires FairRun(f) && forall n: nat :: i <= n && PcAt(f(n), x) == PcAt(f(i), x) ==> Wants(f(n), x)
    ensures i <= m && PcAt(f(m), x) == PcAt(f(i), x) && StopMovesAt(f, x, m)
  {
    var value := (k: nat) => PcAt(f(k), x);
    var moves := (k: nat) => StopMovesAt(f, x, k);
    assert forall k: nat :: StaysAt(value, moves, k);
    assert StopServedFrom(f, x, i);
    var j: nat :| i <= j && StopServedAt(f, x, j);
    NeverHeldForGood(f, j);
    m := FirstMove(value, moves, i, j);
  }

  /** Seen to have moved by j, it has a first move. */
  lemma MovedBefore(f: nat -> State, x: StopId, i: nat, j: nat) returns (m: nat)
    requires i <= j && PcAt(f(j), x) != PcAt(f(i), x)
    ensures i <= m && PcAt(f(m), x) == PcAt(f(i), x) && StopMovesAt(f, x, m)
  {
    var value := (k: nat) => PcAt(f(k), x);
    var moves := (k: nat) => StopMovesAt(f, x, k);
    assert forall k: nat :: StaysAt(value, moves, k);
    m := FirstMove(value, moves, i, j);
  }

  lemma {:induction false} JoinedStays(f: nat -> State, r: RuntimeId, i: nat, n: nat)
    requires FairRun(f) && i <= n && r in f(i).reg.joined
    ensures r in f(n).reg.joined
    decreases n
  {
    if i < n {
      JoinedStays(f, r, i, n - 1);
      assert StepsAt(f, n - 1);
      JoinedOnlyGrows(f(n - 1), f(n));
    }
  }

  lemma JoinedOnlyGrows(s: State, t: State)
    requires Next(s, t)
    ensures s.reg.joined <= t.reg.joined
  {
    Who(s, t);
    if StartStep(s, t) {
      StartKeepsJoined(s, t);
    } else if y :| OwnStep(s, t, y) {
      StopsKeepJoined(s, t, y);
    } else {
      var r :| RuntimeStep(s, t, r);
      RuntimesKeepJoined(s, t, r);
    }
  }

  lemma StartKeepsJoined(s: State, t: State)
    requires StartStep(s, t)
    ensures t.reg.joined == s.reg.joined
  {
  }

  lemma RuntimesKeepJoined(s: State, t: State, r: RuntimeId)
    requires RuntimeStep(s, t, r)
    ensures s.reg.joined <= t.reg.joined
  {
  }

  lemma StopsKeepJoined(s: State, t: State, y: StopId)
    requires OwnStep(s, t, y)
    ensures t.reg.joined == s.reg.joined
  {
  }

  lemma JoiningMoves(f: nat -> State, x: StopId, i: nat) returns (m: nat)
    requires FairRun(f) && SupervisorsJoin(f) && x in f(i).turn.stops && f(i).turn.stops[x].Joining?
    ensures i <= m && PcAt(f(m), x) == PcAt(f(i), x) && StopMovesAt(f, x, m)
  {
    var pc := PcAt(f(i), x);
    if pc.todo == [] {
      m := WantingStopMoves(f, x, i);
    } else {
      var r := pc.todo[0];
      InvAt(f, i);
      NextIsKnown(f(i), x);
      assert JoinsLater(f, r);
      var k: nat :| r in f(k).reg.joined;
      var n := if k < i then i else k;
      JoinedStays(f, r, k, n);
      if PcAt(f(n), x) != pc {
        m := MovedBefore(f, x, i, n);
      } else {
        forall l: nat | n <= l && PcAt(f(l), x) == pc
          ensures Wants(f(l), x)
        {
          JoinedStays(f, r, n, l);
        }
        m := WantingStopMoves(f, x, n);
      }
    }
  }

  lemma NextIsKnown(s: State, x: StopId)
    requires Inv(s) && x in s.turn.stops && s.turn.stops[x].Joining? && s.turn.stops[x].todo != []
    ensures s.turn.stops[x].todo[0] in s.reg.names
  {
    IsOwner(s, x);
    var r := s.turn.stops[x].todo[0];
    assert r in Hand(s.turn.stops[x]);
  }

  // ---------------------------------------------------------------- teardowns

  function TearWork(o: Option<OncePc>): nat {
    match o
    case None => 3
    case Some(Draining) => 2
    case Some(Unsubscribed) => 1
    case Some(Complete) => 0
  }

  lemma StopsOnlyBegin(s: State, t: State, y: StopId, r: RuntimeId)
    requires OwnStep(s, t, y) && OnceAt(t, r) != OnceAt(s, r)
    ensures TearWork(OnceAt(t, r)) < TearWork(OnceAt(s, r))
  {
  }

  lemma RuntimesAdvance(s: State, t: State, q: RuntimeId, r: RuntimeId)
    requires RuntimeStep(s, t, q) && OnceAt(t, r) != OnceAt(s, r)
    ensures TearWork(OnceAt(t, r)) < TearWork(OnceAt(s, r))
  {
  }

  /** A teardown only ever advances. */
  lemma TearAdvances(s: State, t: State, r: RuntimeId)
    requires Next(s, t) && OnceAt(t, r) != OnceAt(s, r)
    ensures TearWork(OnceAt(t, r)) < TearWork(OnceAt(s, r))
  {
    Who(s, t);
    if StartStep(s, t) {
      StartLeavesOnce(s, t);
    } else if y :| OwnStep(s, t, y) {
      StopsOnlyBegin(s, t, y, r);
    } else {
      var q :| RuntimeStep(s, t, q);
      RuntimesAdvance(s, t, q, r);
    }
  }

  lemma StartLeavesOnce(s: State, t: State)
    requires StartStep(s, t)
    ensures t.reg.once == s.reg.once
  {
  }

  /** The teardown before which x stands moves, unless x has. */
  lemma TearMoves(f: nat -> State, x: StopId, r: RuntimeId, i: nat) returns (m: nat)
    requires FairRun(f) && PcAt(f(i), x).Tearing? && PcAt(f(i), x).rt == r && OnceAt(f(i), r) != Some(Complete)
    ensures i <= m
    ensures PcAt(f(m), x) != PcAt(f(i), x) || (OnceAt(f(m), r) == OnceAt(f(i), r) && TearMovesAt(f, r, m))
  {
    assert TearServedFrom(f, x, r, i);
    var j: nat :| i <= j && TearServedAt(f, x, r, j);
    NeverHeldForGood(f, j);
    if PcAt(f(j), x) != PcAt(f(i), x) {
      m := j;
    } else {
      var value := (k: nat) => OnceAt(f(k), r);
      var moves := (k: nat) => TearMovesAt(f, r, k);
      assert forall k: nat :: StaysAt(value, moves, k);
      m := FirstMove(value, moves, i, j);
    }
  }

  lemma TearMoveAdvances(f: nat -> State, r: RuntimeId, m: nat)
    requires FairRun(f) && TearMovesAt(f, r, m)
    ensures TearWork(OnceAt(f(m + 1), r)) < TearWork(OnceAt(f(m), r))
  {
    assert StepsAt(f, m);
    TearAdvances(f(m), f(m + 1), r);
  }

  /** The teardown before which x stands completes, unless x has moved on. */
  lemma {:induction false} TearCompletes(f: nat -> State, x: StopId, r: RuntimeId, i: nat) returns (n: nat)
    requires FairRun(f) && PcAt(f(i), x).Tearing? && PcAt(f(i), x).rt == r
    ensures i <= n && (PcAt(f(n), x) != PcAt(f(i), x) || OnceAt(f(n), r) == Some(Complete))
    decreases TearWork(OnceAt(f(i), r))
  {
    if OnceAt(f(i), r) == Some(Complete) {
      n := i;
    } else {
      var m := TearMoves(f, x, r, i);
      if PcAt(f(m), x) != PcAt(f(i), x) {
        n := m;
      } else if PcAt(f(m + 1), x) != PcAt(f(i), x) {
        n := m + 1;
      } else {
        TearMoveAdvances(f, r, m);
        n := TearCompletes(f, x, r, m + 1);
      }
    }
  }

  lemma {:induction false} CompleteStays(f: nat -> State, r: RuntimeId, i: nat, n: nat)
    requires FairRun(f) && i <= n && OnceAt(f(i), r) == Some(Complete)
    ensures OnceAt(f(n), r) == Some(Complete)
    decreases n
  {
    if i < n {
      CompleteStays(f, r, i, n - 1);
      assert StepsAt(f, n - 1);
      CompleteIsFinal(f(n - 1), f(n), r);
    }
  }

  lemma CompleteIsFinal(s: State, t: State, r: RuntimeId)
    requires Next(s, t) && OnceAt(s, r) == Some(Complete)
    ensures OnceAt(t, r) == Some(Complete)
  {
    if OnceAt(t, r) != OnceAt(s, r) {
      TearAdvances(s, t, r);
    }
  }

  lemma TearingMoves(f: nat -> State, x: StopId, i: nat) returns (m: nat)
    requires FairRun(f) && PcAt(f(i), x).Tearing?
    ensures i <= m && PcAt(f(m), x) == PcAt(f(i), x) && StopMovesAt(f, x, m)
  {
    var pc := PcAt(f(i), x);
    var n := TearCompletes(f, x, pc.rt, i);
    if PcAt(f(n), x) != pc {
      m := MovedBefore(f, x, i, n);
    } else {
      forall l: nat | n <= l && PcAt(f(l), x) == pc
        ensures Wants(f(l), x)
      {
        CompleteStays(f, pc.rt, n, l);
      }
      m := WantingStopMoves(f, x, n);
    }
  }

  // ---------------------------------------------------------------- the release

  /** A release that was claimed and has not finished is being run by somebody. */
  ghost predicate ClaimerInv(s: State) {
    s.workers.released && !s.workers.finished ==>
      (exists x :: x in s.turn.stops && s.turn.stops[x].RunRelease?) || (exists r :: Releasing(s, r))
  }

  lemma StopKeepsClaimer(s: State, t: State, y: StopId)
    requires ClaimerInv(s) && OwnStep(s, t, y)
    ensures ClaimerInv(t)
  {
    if t.workers.released && !t.workers.finished {
      if Claims(s, t, y) {
        assert t.turn.stops[y].RunRelease?;
      } else {
        ClaimStays(s, t, y);
      }
    }
  }

  lemma ClaimStays(s: State, t: State, y: StopId)
    requires OwnStep(s, t, y) && !Claims(s, t, y) && !t.workers.finished
    ensures t.workers == s.workers
    ensures forall x :: x in s.turn.stops && s.turn.stops[x].RunRelease? ==>
              x in t.turn.stops && t.turn.stops[x].RunRelease?
    ensures forall r :: Releasing(s, r) ==> Releasing(t, r)
  {
  }

  lemma RuntimeKeepsClaimer(s: State, t: State, q: RuntimeId)
    requires ClaimerInv(s) && RuntimeStep(s, t, q)
    ensures ClaimerInv(t)
  {
    if t.workers.released && !t.workers.finished {
      if WatcherClaims(s, t, q) {
        assert Releasing(t, q);
      } else {
        WatchersKeepClaims(s, t, q);
      }
    }
  }

  lemma WatchersKeepClaims(s: State, t: State, q: RuntimeId)
    requires RuntimeStep(s, t, q) && !WatcherClaims(s, t, q) && !t.workers.finished
    ensures t.workers == s.workers && t.turn == s.turn && forall r :: Releasing(s, r) ==> Releasing(t, r)
  {
  }

  lemma StartKeepsClaimer(s: State, t: State)
    requires ClaimerInv(s) && StartStep(s, t)
    ensures ClaimerInv(t)
  {
    StartLeavesStops(s, t);
    assert forall r :: Releasing(s, r) ==> Releasing(t, r);
  }

  lemma {:induction false} ReleaseHasAClaimer(run: seq<State>, i: nat)
    requires IsRun(run) && i < |run|
    ensures ClaimerInv(run[i])
  {
    if i > 0 {
      ReleaseHasAClaimer(run, i - 1);
      var s, t := run[i - 1], run[i];
      assert Next(s, t);
      Who(s, t);
      if StartStep(s, t) {
        StartKeepsClaimer(s, t);
      } else if y :| OwnStep(s, t, y) {
        StopKeepsClaimer(s, t, y);
      } else {
        var r :| RuntimeStep(s, t, r);
        RuntimeKeepsClaimer(s, t, r);
      }
    }
  }

  lemma ReleasingEndsFinished(s: State, t: State, r: RuntimeId)
    requires Next(s, t) && Releasing(s, r) && !Releasing(t, r)
    ensures t.workers.finished
  {
    Who(s, t);
    if StartStep(s, t) {
      WatchersSurviveStart(s, t, r);
    } else if y :| OwnStep(s, t, y) {
      WatchersSurviveStops(s, t, y, r);
    } else {
      var q :| RuntimeStep(s, t, q);
      OnlyFinishingEnds(s, t, q, r);
    }
  }

  lemma WatchersSurviveStart(s: State, t: State, r: RuntimeId)
    requires StartStep(s, t) && Releasing(s, r)
    ensures Releasing(t, r)
  {
  }

  lemma WatchersSurviveStops(s: State, t: State, y: StopId, r: RuntimeId)
    requires OwnStep(s, t, y) && Releasing(s, r)
    ensures Releasing(t, r)
  {
  }

  lemma OnlyFinishingEnds(s: State, t: State, q: RuntimeId, r: RuntimeId)
    requires RuntimeStep(s, t, q) && Releasing(s, r) && !Releasing(t, r)
    ensures t.workers.finished
  {
  }

  lemma {:induction false} ReleaseFinishes(f: nat -> State, r: RuntimeId, i: nat, j: nat) returns (n: nat)
    requires FairRun(f) && Releasing(f(i), r) && i <= j && ReleaseServedAt(f, r, j)
    ensures i <= n && f(n).workers.finished
    decreases j - i
  {
    if !Releasing(f(i + 1), r) {
      assert StepsAt(f, i);
      ReleasingEndsFinished(f(i), f(i + 1), r);
      n := i + 1;
    } else {
      n := ReleaseFinishes(f, r, i + 1, j);
    }
  }

  lemma FinishedOnlyOnce(s: State, t: State)
    requires Next(s, t) && s.workers.finished
    ensures t.workers.finished
  {
    Who(s, t);
    if StartStep(s, t) {
      StartLeavesStops(s, t);
    } else if y :| OwnStep(s, t, y) {
      StopsKeepFinished(s, t, y);
    } else {
      var r :| RuntimeStep(s, t, r);
      RuntimesKeepFinished(s, t, r);
    }
  }

  lemma StopsKeepFinished(s: State, t: State, y: StopId)
    requires OwnStep(s, t, y) && s.workers.finished
    ensures t.workers.finished
  {
  }

  lemma RuntimesKeepFinished(s: State, t: State, r: RuntimeId)
    requires RuntimeStep(s, t, r) && s.workers.finished
    ensures t.workers.finished
  {
  }

  lemma {:induction false} FinishedStays(f: nat -> State, i: nat, n: nat)
    requires FairRun(f) && i <= n && f(i).workers.finished
    ensures f(n).workers.finished
    decreases n
  {
    if i < n {
      FinishedStays(f, i, n - 1);
      assert StepsAt(f, n - 1);
      FinishedOnlyOnce(f(n - 1), f(n));
    }
  }

  /** While x waits for a release, the one who runs it is a watcher. */
  lemma WatcherRunsIt(s: State, x: StopId) returns (r: RuntimeId)
    requires Inv(s) && ClaimerInv(s) && x in s.turn.stops && s.turn.stops[x].AwaitRelease? && s.turn.stops[x].claimed
    requires !s.workers.finished
    ensures Releasing(s, r)
  {
    IsOwner(s, x);
    IsClean(s, x);
    if y :| y in s.turn.stops && s.turn.stops[y].RunRelease? {
      IsOwner(s, y);
    }
    r :| Releasing(s, r);
  }

  lemma AwaitingMoves(f: nat -> State, x: StopId, i: nat) returns (m: nat)
    requires FairRun(f) && x in f(i).turn.stops && f(i).turn.stops[x].AwaitRelease?
    ensures i <= m && PcAt(f(m), x) == PcAt(f(i), x) && StopMovesAt(f, x, m)
  {
    var pc := PcAt(f(i), x);
    var n := i;
    if pc.claimed && !f(i).workers.finished {
      InvAt(f, i);
      var r := WatcherRunsIt(f(i), x);
      assert ReleaseServedFrom(f, r, i);
      var j: nat :| i <= j && ReleaseServedAt(f, r, j);
      n := ReleaseFinishes(f, r, i, j);
    }
    if PcAt(f(n), x) != pc {
      m := MovedBefore(f, x, i, n);
    } else {
      forall l: nat | n <= l && PcAt(f(l), x) == pc
        ensures Wants(f(l), x)
      {
        if pc.claimed {
          FinishedStays(f, n, l);
        }
      }
      m := WantingStopMoves(f, x, n);
    }
  }

  // ---------------------------------------------------------------- a turn ends

  /** At its turn, or handing it on. */
  predicate AtTurn(pc: StopPc) {
    Owning(pc) || pc.HandOn?
  }

  /** What is left of a turn. */
  function Way(pc: StopPc): (nat, nat) {
    match pc
    case Joining(todo, _) => (4, 2 * |todo| + 1)
    case Tearing(_, todo, _) => (4, 2 * |todo| + 2)
    case Retaining(_) => (3, 0)
    case Watching(todo) => (2, |todo|)
    case Release(_) => (1, 5)
    case RunRelease(_) => (1, 4)
    case AwaitRelease(_, _) => (1, 4)
    case Ending(_) => (1, 3)
    case HandOn(_) => (1, 2)
    case _ => (0, 0)
  }

  predicate Shorter(a: StopPc, b: StopPc) {
    Way(a).0 < Way(b).0 || (Way(a).0 == Way(b).0 && Way(a).1 < Way(b).1)
  }

  /** Whether the turn still ends in nil. */
  predicate OnTrack(pc: StopPc) {
    match pc
    case Joining(_, unjoined) => unjoined == []
    case Tearing(_, _, unjoined) => unjoined == []
    case Release(failed) => !failed
    case RunRelease(failed) => !failed
    case AwaitRelease(failed, _) => !failed
    case Ending(failed) => !failed
    case HandOn(failed) => !failed
    case Returned(ok) => ok
    case _ => false
  }

  /** One move of a Stop at its turn: shorter, and on track unless it was a fault. */
  predicate GoesOn(s: State, t: State, x: StopId) {
    && x in s.turn.stops && x in t.turn.stops
    && Shorter(t.turn.stops[x], s.turn.stops[x])
    && (AtTurn(t.turn.stops[x]) || (t.turn.stops[x].Returned? && x in t.turn.handedOn))
    && (OnTrack(s.turn.stops[x]) && !Faulty(s, t, x) ==> OnTrack(t.turn.stops[x]))
  }

  lemma TurnGoesOn(s: State, t: State, x: StopId)
    requires TurnStep(s, t, x) && x in s.turn.stops && AtTurn(s.turn.stops[x])
    ensures GoesOn(s, t, x)
  {
  }

  lemma WaitGoesOn(s: State, t: State, x: StopId)
    requires SupervisorWait(s, t, x) && x in t.turn.stops
    ensures GoesOn(s, t, x)
  {
  }

  lemma TearGoesOn(s: State, t: State, x: StopId)
    requires JoinStep(s, t, x) && !SupervisorWait(s, t, x) && x in t.turn.stops
    requires t.turn.stops[x] != s.turn.stops[x]
    ensures GoesOn(s, t, x)
  {
  }

  lemma JoinGoesOn(s: State, t: State, x: StopId)
    requires JoinStep(s, t, x) && x in t.turn.stops && t.turn.stops[x] != s.turn.stops[x]
    ensures GoesOn(s, t, x)
  {
    if SupervisorWait(s, t, x) {
      WaitGoesOn(s, t, x);
    } else {
      TearGoesOn(s, t, x);
    }
  }

  lemma ReleaseGoesOn(s: State, t: State, x: StopId)
    requires ReleaseStep(s, t, x)
    ensures GoesOn(s, t, x)
  {
  }

  lemma MoveGoesOn(s: State, t: State, x: StopId)
    requires Next(s, t) && x in s.turn.stops && AtTurn(s.turn.stops[x]) && PcAt(t, x) != PcAt(s, x)
    ensures GoesOn(s, t, x)
  {
    StopMovesItself(s, t, x);
    if TurnStep(s, t, x) {
      TurnGoesOn(s, t, x);
    } else if JoinStep(s, t, x) {
      JoinGoesOn(s, t, x);
    } else {
      ReleaseGoesOn(s, t, x);
    }
  }

  lemma AtTurnMoves(f: nat -> State, x: StopId, i: nat) returns (m: nat)
    requires FairRun(f) && SupervisorsJoin(f) && x in f(i).turn.stops && AtTurn(f(i).turn.stops[x])
    ensures i <= m && PcAt(f(m), x) == PcAt(f(i), x) && StopMovesAt(f, x, m)
  {
    match f(i).turn.stops[x]
    case Joining(_, _) => m := JoiningMoves(f, x, i);
    case Tearing(_, _, _) => m := TearingMoves(f, x, i);
    case AwaitRelease(_, _) => m := AwaitingMoves(f, x, i);
    case _ => m := WantingStopMoves(f, x, i);
  }

  lemma {:induction false} StopStays(f: nat -> State, x: StopId, i: nat, n: nat)
    requires FairRun(f) && i <= n && x in f(i).turn.stops
    ensures x in f(n).turn.stops
    decreases n
  {
    if i < n {
      StopStays(f, x, i, n - 1);
      assert StepsAt(f, n - 1);
      StopMovesItself(f(n - 1), f(n), x);
    }
  }

  /** From k on the turn of x gets shorter by a move at m. */
  predicate ShortensAt(f: nat -> State, x: StopId, k: nat, m: nat) {
    && k <= m && x in f(k).turn.stops && x in f(m).turn.stops && f(m).turn.stops[x] == f(k).turn.stops[x]
    && GoesOn(f(m), f(m + 1), x)
  }

  ghost predicate Shortens(f: nat -> State, x: StopId, k: nat) {
    exists m: nat :: ShortensAt(f, x, k, m)
  }

  lemma TurnShortens(f: nat -> State, x: StopId, k: nat)
    requires FairRun(f) && SupervisorsJoin(f) && x in f(k).turn.stops && AtTurn(f(k).turn.stops[x])
    ensures Shortens(f, x, k)
  {
    var m := AtTurnMoves(f, x, k);
    StopStays(f, x, k, m);
    assert StepsAt(f, m);
    MoveGoesOn(f(m), f(m + 1), x);
    assert ShortensAt(f, x, k, m);
  }

  predicate StandsAt(f: nat -> State, x: StopId, k: nat) {
    x in f(k).turn.stops && AtTurn(f(k).turn.stops[x])
  }

  predicate FaultsAt(f: nat -> State, x: StopId, n: nat) {
    Faulty(f(n), f(n + 1), x)
  }

  /** From i on x makes no fault. */
  ghost predicate Unfaulted(f: nat -> State, x: StopId, i: nat) {
    forall n: nat :: i <= n ==> !FaultsAt(f, x, n)
  }

  lemma {:induction false} ShorteningTurnEnds(f: nat -> State, x: StopId, i: nat) returns (n: nat)
    requires StandsAt(f, x, i) && forall k: nat :: StandsAt(f, x, k) ==> Shortens(f, x, k)
    ensures i <= n && x in f(n).turn.stops && f(n).turn.stops[x].Returned? && x in f(n).turn.handedOn
    ensures OnTrack(f(i).turn.stops[x]) && Unfaulted(f, x, i) ==> f(n).turn.stops[x] == Returned(true)
    decreases Way(f(i).turn.stops[x]).0, Way(f(i).turn.stops[x]).1
  {
    assert Shortens(f, x, i);
    var m: nat :| ShortensAt(f, x, i, m);
    assert Unfaulted(f, x, i) ==> !FaultsAt(f, x, m);
    if StandsAt(f, x, m + 1) {
      n := ShorteningTurnEnds(f, x, m + 1);
    } else {
      n := m + 1;
    }
  }

  /** Every turn ends and is handed on, and one that makes no fault ends in nil. */
  lemma TurnEnds(f: nat -> State, x: StopId, i: nat) returns (n: nat)
    requires FairRun(f) && SupervisorsJoin(f) && StandsAt(f, x, i)
    ensures i <= n && x in f(n).turn.stops && f(n).turn.stops[x].Returned? && x in f(n).turn.handedOn
    ensures OnTrack(f(i).turn.stops[x]) && Unfaulted(f, x, i) ==> f(n).turn.stops[x] == Returned(true)
  {
    forall k: nat | StandsAt(f, x, k)
      ensures Shortens(f, x, k)
    {
      TurnShortens(f, x, k);
    }
    n := ShorteningTurnEnds(f, x, i);
  }

  // ---------------------------------------------------------------- the turn comes

  /** The owner a Stop waits for is at its turn or has handed it on. */
  ghost predicate WaitInv(s: State) {
    && (forall x :: x in s.turn.stops && s.turn.stops[x].WaitTurn? ==> OwnerKnown(s, s.turn.stops[x].owner))
    && (forall y :: y in s.turn.handedOn ==> y in s.turn.stops && s.turn.stops[y].Returned?)
  }

  predicate OwnerKnown(s: State, y: StopId) {
    y in s.turn.stops && (AtTurn(s.turn.stops[y]) || y in s.turn.handedOn)
  }

  lemma OwnerStaysKnown(s: State, t: State, y: StopId)
    requires Next(s, t) && OwnerKnown(s, y)
    ensures OwnerKnown(t, y)
  {
    StopMovesItself(s, t, y);
    HandedOnOnlyGrows(s, t);
    if y !in s.turn.handedOn && t.turn.stops[y] != s.turn.stops[y] {
      MoveGoesOn(s, t, y);
    }
  }

  lemma HandedOnOnlyGrows(s: State, t: State)
    requires Next(s, t)
    ensures s.turn.handedOn <= t.turn.handedOn
  {
    Who(s, t);
    if StartStep(s, t) {
      StartLeavesStops(s, t);
    } else if y :| OwnStep(s, t, y) {
      StopsHandOn(s, t, y);
    } else {
      var r :| RuntimeStep(s, t, r);
      RuntimesLeaveStops(s, t, r);
    }
  }

  lemma StopsHandOn(s: State, t: State, y: StopId)
    requires OwnStep(s, t, y)
    ensures s.turn.handedOn <= t.turn.handedOn <= s.turn.handedOn + {y}
    ensures y in t.turn.handedOn && y !in s.turn.handedOn ==> y in t.turn.stops && t.turn.stops[y].Returned?
  {
  }

  lemma ReturnedStays(s: State, t: State, y: StopId)
    requires Next(s, t) && y in s.turn.stops && s.turn.stops[y].Returned?
    ensures y in t.turn.stops && t.turn.stops[y] == s.turn.stops[y]
  {
    StopMovesItself(s, t, y);
    if OwnStep(s, t, y) {
      NoStepAfterReturn(s, t, y);
    }
  }

  lemma NoStepAfterReturn(s: State, t: State, y: StopId)
    requires y in s.turn.stops && s.turn.stops[y].Returned?
    ensures !OwnStep(s, t, y)
  {
  }

  lemma WaitsForTheOwner(s: State, t: State, x: StopId)
    requires Inv(s) && Next(s, t) && x in t.turn.stops && t.turn.stops[x].WaitTurn?
    ensures x in s.turn.stops
    ensures s.turn.stops[x] == t.turn.stops[x] || OwnerKnown(s, t.turn.stops[x].owner)
  {
    if x !in s.turn.stops {
      NewStopArrives(s, t, x);
    } else {
      StopMovesItself(s, t, x);
      if t.turn.stops[x] != s.turn.stops[x] {
        OnlyTheTurnWaits(s, t, x);
        IsOwner(s, t.turn.stops[x].owner);
      }
    }
  }

  lemma JoinNeverWaits(s: State, t: State, x: StopId)
    requires JoinStep(s, t, x) && x in t.turn.stops
    ensures !t.turn.stops[x].WaitTurn?
  {
  }

  lemma ReleaseNeverWaits(s: State, t: State, x: StopId)
    requires ReleaseStep(s, t, x) && x in t.turn.stops
    ensures !t.turn.stops[x].WaitTurn?
  {
  }

  lemma InFlightIsKnown(s: State, y: StopId)
    requires Structure(s) && s.turn.inFlight == Some(y)
    ensures y in s.turn.stops
  {
  }

  lemma OnlyTheTurnWaits(s: State, t: State, x: StopId)
    requires Inv(s) && OwnStep(s, t, x) && x in s.turn.stops && x in t.turn.stops && t.turn.stops[x].WaitTurn?
    ensures s.turn.inFlight == Some(t.turn.stops[x].owner) && t.turn.stops[x].owner in s.turn.stops
  {
    if JoinStep(s, t, x) {
      JoinNeverWaits(s, t, x);
    } else if ReleaseStep(s, t, x) {
      ReleaseNeverWaits(s, t, x);
    } else {
      TurnWaits(s, t, x);
      InFlightIsKnown(s, t.turn.stops[x].owner);
    }
  }

  lemma TurnWaits(s: State, t: State, x: StopId)
    requires TurnStep(s, t, x) && x in s.turn.stops && x in t.turn.stops && t.turn.stops[x].WaitTurn?
    ensures s.turn.inFlight == Some(t.turn.stops[x].owner)
  {
  }

  lemma HandedHaveReturned(s: State, t: State, y: StopId)
    requires WaitInv(s) && Next(s, t) && y in t.turn.handedOn
    ensures y in t.turn.stops && t.turn.stops[y].Returned?
  {
    if y in s.turn.handedOn {
      ReturnedStays(s, t, y);
    } else {
      NewlyHandedOn(s, t, y);
    }
  }

  lemma NewlyHandedOn(s: State, t: State, y: StopId)
    requires Next(s, t) && y in t.turn.handedOn && y !in s.turn.handedOn
    ensures y in t.turn.stops && t.turn.stops[y].Returned?
  {
    Who(s, t);
    if StartStep(s, t) {
      StartLeavesStops(s, t);
    } else if z :| OwnStep(s, t, z) {
      StopsHandOn(s, t, z);
    } else {
      var r :| RuntimeStep(s, t, r);
      RuntimesLeaveStops(s, t, r);
    }
  }

  lemma StepKeepsWaitInv(s: State, t: State)
    requires Inv(s) && WaitInv(s) && Next(s, t)
    ensures WaitInv(t)
  {
    forall x | x in t.turn.stops && t.turn.stops[x].WaitTurn?
      ensures OwnerKnown(t, t.turn.stops[x].owner)
    {
      WaitsForTheOwner(s, t, x);
      OwnerStaysKnown(s, t, t.turn.stops[x].owner);
    }
    forall y | y in t.turn.handedOn
      ensures y in t.turn.stops && t.turn.stops[y].Returned?
    {
      HandedHaveReturned(s, t, y);
    }
  }

  lemma NobodyWaitsAtFirst(s: State)
    requires Init(s)
    ensures WaitInv(s)
  {
  }

  lemma {:induction false} WaitInvHolds(run: seq<State>, i: nat)
    requires IsRun(run) && i < |run|
    ensures Inv(run[i]) && WaitInv(run[i])
  {
    Reachable(run, i);
    if i == 0 {
      NobodyWaitsAtFirst(run[0]);
    } else {
      WaitInvHolds(run, i - 1);
      StepKeepsWaitInv(run[i - 1], run[i]);
    }
  }

  lemma WaitInvAt(f: nat -> State, k: nat)
    requires FairRun(f)
    ensures WaitInv(f(k))
  {
    PrefixIsARun(f, k);
    WaitInvHolds(Prefix(f, k), k);
  }

  lemma {:induction false} HandedOnStays(f: nat -> State, y: StopId, i: nat, n: nat)
    requires FairRun(f) && i <= n && y in f(i).turn.handedOn
    ensures y in f(n).turn.handedOn
    decreases n
  {
    if i < n {
      HandedOnStays(f, y, i, n - 1);
      assert StepsAt(f, n - 1);
      HandedOnOnlyGrows(f(n - 1), f(n));
    }
  }

  /** A waiting Stop is woken: the owner it waits for hands on. */
  lemma WaitingMoves(f: nat -> State, x: StopId, i: nat) returns (m: nat)
    requires FairRun(f) && SupervisorsJoin(f) && x in f(i).turn.stops && f(i).turn.stops[x].WaitTurn?
    ensures i <= m && PcAt(f(m), x) == PcAt(f(i), x) && StopMovesAt(f, x, m)
  {
    var pc := PcAt(f(i), x);
    var n := i;
    WaitInvAt(f, i);
    assert OwnerKnown(f(i), pc.owner);
    if pc.owner !in f(i).turn.handedOn {
      n := TurnEnds(f, pc.owner, i);
    }
    if PcAt(f(n), x) != pc {
      m := MovedBefore(f, x, i, n);
    } else {
      forall l: nat | n <= l && PcAt(f(l), x) == pc
        ensures Wants(f(l), x)
      {
        HandedOnStays(f, pc.owner, n, l);
      }
      m := WantingStopMoves(f, x, n);
    }
  }

  /** Stops that have not returned. */
  function Pending(s: State): set<StopId> {
    set y | y in s.turn.stops && !s.turn.stops[y].Returned?
  }

  lemma PendingShrinks(s: State, t: State)
    requires Next(s, t) && t.turn.stops.Keys == s.turn.stops.Keys
    ensures Pending(t) <= Pending(s)
  {
    forall y | y in Pending(t)
      ensures y in Pending(s)
    {
      assert y in s.turn.stops.Keys;
      if s.turn.stops[y].Returned? {
        ReturnedStays(s, t, y);
      }
    }
  }

  /** No Stop arrives after time i. */
  ghost predicate NoNewStops(f: nat -> State, i: nat) {
    forall n: nat :: i <= n ==> f(n).turn.stops.Keys == f(i).turn.stops.Keys
  }

  lemma {:induction false} PendingOnlyShrinks(f: nat -> State, i: nat, n: nat)
    requires FairRun(f) && NoNewStops(f, i) && i <= n
    ensures Pending(f(n)) <= Pending(f(i))
    decreases n
  {
    if i < n {
      PendingOnlyShrinks(f, i, n - 1);
      assert StepsAt(f, n - 1);
      PendingShrinks(f(n - 1), f(n));
    }
  }

  lemma ArrivedStep(s: State, t: State, x: StopId)
    requires Inv(s) && Next(s, t) && x in s.turn.stops && s.turn.stops[x] == Arrived && PcAt(t, x) != Arrived
    ensures x in t.turn.stops
    ensures (t.turn.stops[x].Joining? && OnTrack(t.turn.stops[x]))
            || (t.turn.stops[x].WaitTurn? && t.turn.stops[x].owner in s.turn.stops
                && Owning(s.turn.stops[t.turn.stops[x].owner]))
  {
    StopMovesItself(s, t, x);
    ArrivedOwnStep(s, t, x);
    if t.turn.stops[x].WaitTurn? {
      OnlyTheTurnWaits(s, t, x);
      IsOwner(s, t.turn.stops[x].owner);
    }
  }

  lemma ArrivedOwnStep(s: State, t: State, x: StopId)
    requires OwnStep(s, t, x) && x in s.turn.stops && s.turn.stops[x] == Arrived
    ensures FindsOwner(s, t, x) || TakesSnapshot(s, t, x)
  {
  }

  lemma WaitingStep(s: State, t: State, x: StopId)
    requires Next(s, t) && x in s.turn.stops && s.turn.stops[x].WaitTurn? && PcAt(t, x) != PcAt(s, x)
    requires !Faulty(s, t, x)
    ensures x in t.turn.stops && t.turn.stops[x] == Arrived && s.turn.stops[x].owner in s.turn.handedOn
  {
    StopMovesItself(s, t, x);
    WaitingOwnStep(s, t, x);
  }

  lemma WaitingOwnStep(s: State, t: State, x: StopId)
    requires OwnStep(s, t, x) && x in s.turn.stops && s.turn.stops[x].WaitTurn?
    ensures WakesUp(s, t, x) || GivesUpTurn(s, t, x)
  {
  }

  lemma WaitMoveWakes(f: nat -> State, x: StopId, m: nat)
    requires FairRun(f) && x in f(m).turn.stops && f(m).turn.stops[x].WaitTurn?
    requires StopMovesAt(f, x, m) && !FaultsAt(f, x, m)
    ensures x in f(m + 1).turn.stops && f(m + 1).turn.stops[x] == Arrived
    ensures f(m).turn.stops[x].owner in f(m).turn.handedOn
  {
    assert StepsAt(f, m);
    WaitingStep(f(m), f(m + 1), x);
  }

  /** A Stop that waits is back in the race, and the owner it waited for is done. */
  lemma WaitIsOver(f: nat -> State, x: StopId, i: nat) returns (n: nat)
    requires FairRun(f) && SupervisorsJoin(f) && Unfaulted(f, x, i)
    requires x in f(i).turn.stops && f(i).turn.stops[x].WaitTurn?
    ensures i <= n && x in f(n).turn.stops && f(n).turn.stops[x] == Arrived
    ensures f(i).turn.stops[x].owner !in Pending(f(n))
  {
    var m := WaitingMoves(f, x, i);
    StopStays(f, x, i, m);
    WaitMoveWakes(f, x, m);
    OwnerIsDone(f, f(i).turn.stops[x].owner, m);
    n := m + 1;
  }

  lemma OwnerIsDone(f: nat -> State, y: StopId, m: nat)
    requires FairRun(f) && y in f(m).turn.handedOn
    ensures y !in Pending(f(m + 1))
  {
    HandedOnStays(f, y, m, m + 1);
    WaitInvAt(f, m + 1);
  }

  /** The first move of a Stop in the race. */
  lemma RaceMove(f: nat -> State, x: StopId, i: nat) returns (m: nat)
    requires FairRun(f) && x in f(i).turn.stops && f(i).turn.stops[x] == Arrived
    ensures i <= m && x in f(m).turn.stops && x in f(m + 1).turn.stops
    ensures (f(m + 1).turn.stops[x].Joining? && OnTrack(f(m + 1).turn.stops[x]))
            || (f(m + 1).turn.stops[x].WaitTurn? && f(m + 1).turn.stops[x].owner in Pending(f(m)))
  {
    m := WantingStopMoves(f, x, i);
    StopStays(f, x, i, m);
    InvAt(f, m);
    assert StepsAt(f, m);
    ArrivedStep(f(m), f(m + 1), x);
  }

  /** Each round lost in the race costs a rival; in the end the turn comes. */
  lemma {:induction false} TurnComes(f: nat -> State, x: StopId, i: nat) returns (n: nat)
    requires FairRun(f) && SupervisorsJoin(f) && Unfaulted(f, x, i) && NoNewStops(f, i)
    requires x in f(i).turn.stops && f(i).turn.stops[x] == Arrived
    ensures i <= n && StandsAt(f, x, n) && OnTrack(f(n).turn.stops[x])
    decreases |Pending(f(i))|
  {
    var m := RaceMove(f, x, i);
    if f(m + 1).turn.stops[x].Joining? {
      n := m + 1;
    } else {
      var y := f(m + 1).turn.stops[x].owner;
      var k := WaitIsOver(f, x, m + 1);
      PendingOnlyShrinks(f, i, m);
      PendingOnlyShrinks(f, i, k);
      assert Pending(f(k)) <= Pending(f(i)) - {y};
      FewerPending(Pending(f(k)), Pending(f(i)), y);
      n := TurnComes(f, x, k);
    }
  }

  lemma FewerPending(a: set<StopId>, b: set<StopId>, y: StopId)
    requires a <= b - {y} && y in b
    ensures |a| < |b|
  {
    SubsetSize(a, b - {y});
  }

  lemma {:induction false} SubsetSize(a: set<StopId>, b: set<StopId>)
    requires a <= b
    ensures |a| <= |b|
  {
    if a != {} {
      var z :| z in a;
      SubsetSize(a - {z}, b - {z});
    }
  }

  /** In every fair run in which the supervisors return, a Stop whose budget does not end
      returns nil, however many other Stops run beside it, as long as no more keep coming. */
  lemma PatientStopReturnsNil(f: nat -> State, x: StopId, i: nat) returns (n: nat)
    requires FairRun(f) && SupervisorsJoin(f) && Unfaulted(f, x, i) && NoNewStops(f, i)
    requires x in f(i).turn.stops
    requires f(i).turn.stops[x] == Arrived || f(i).turn.stops[x].WaitTurn? || OnTrack(f(i).turn.stops[x])
    ensures i <= n && x in f(n).turn.stops && f(n).turn.stops[x] == Returned(true)
  {
    var k := i;
    if f(k).turn.stops[x].WaitTurn? {
      k := WaitIsOver(f, x, k);
    }
    if f(k).turn.stops[x] == Arrived {
      k := TurnComes(f, x, k);
    }
    if f(k).turn.stops[x].Returned? {
      n := k;
    } else {
      n := TurnEnds(f, x, k);
    }
  }

  // ---------------------------------------------------------------- a whole life

  const NAME: Name := "p"
  const NONE := Registry(map[], {}, [], {}, map[], map[], {}, map[])
  const ONE := NONE.(names := map[0 := NAME])
  const QUIET := Turn(false, false, None, {}, map[])
  const IDLE := Workers(false, 0, false)
  const OURS := Turn(true, true, Some(0), {}, map[0 := Arrived])
  const GATED := ONE.(stopping := {NAME}, joined := {0})
  const DONE := ONE.(joined := {0}, once := map[0 := Complete], torn := {0}, tears := map[0 := 1])

  ghost predicate Reaches(run: seq<State>, s: State) {
    IsRun(run) && run[|run| - 1] == s
  }

  lemma Extend(run: seq<State>, s: State, t: State) returns (longer: seq<State>)
    requires Reaches(run, s) && Next(s, t)
    ensures Reaches(longer, t)
  {
    longer := run + [t];
    forall i | 0 <= i < |longer| - 1
      ensures Next(longer[i], longer[i + 1])
    {
      assert i < |run| - 1 ==> longer[i] == run[i] && longer[i + 1] == run[i + 1];
    }
  }

  lemma RunToStarted() returns (run: seq<State>)
    ensures Reaches(run, State(NoStart, ONE.(runtimes := [0]), QUIET, IDLE))
  {
    var s0, s1 := State(NoStart, NONE, QUIET, IDLE), State(Starting([NAME]), NONE, QUIET, IDLE);
    var s2 := State(Awaiting(0, []), ONE, QUIET, IDLE);
    var s3 := State(Starting([]), ONE.(runtimes := [0]), QUIET, IDLE);
    var s4 := s3.(start := NoStart);
    run := [s0];
    assert StartBegins(s0, s1);
    run := Extend(run, s0, s1);
    assert [NAME][1..] == [];
    assert Admits(s1, s2, 0);
    run := Extend(run, s1, s2);
    assert Succeeds(s2, s3);
    run := Extend(run, s2, s3);
    assert StartReturns(s3, s4);
    run := Extend(run, s3, s4);
  }

  lemma RunToJoined() returns (run: seq<State>)
    ensures Reaches(run, State(NoStart, GATED, OURS.(stops := map[0 := Joining([0], [])]), IDLE))
  {
    run := RunToStarted();
    var s1 := State(NoStart, ONE.(runtimes := [0]), QUIET, IDLE);
    var s2 := s1.(turn := Turn(true, false, None, {}, map[0 := Arrived]));
    var s3 := State(NoStart, GATED.(joined := {}), OURS.(stops := map[0 := Joining([0], [])]), IDLE);
    assert Arrives(s1, s2, 0) && TurnStep(s1, s2, 0);
    run := Extend(run, s1, s2);
    assert NamesOf(s2, [0]) == {NAME} by {
      assert 0 in [0] && s2.reg.names[0] == NAME;
    }
    assert TakesSnapshot(s2, s3, 0) && TurnStep(s2, s3, 0);
    run := Extend(run, s2, s3);
    var s4 := s3.(reg := GATED);
    assert RunReturns(s3, s4, 0) && RuntimeStep(s3, s4, 0);
    run := Extend(run, s3, s4);
  }

  lemma RunToTorn() returns (run: seq<State>)
    ensures Reaches(run, State(NoStart, DONE, OURS.(stops := map[0 := Tearing(0, [], [])]), IDLE))
  {
    run := RunToJoined();
    var s1 := State(NoStart, GATED, OURS.(stops := map[0 := Joining([0], [])]), IDLE);
    var s2 := s1.(turn := OURS.(stops := map[0 := Tearing(0, [], [])]));
    assert [0 as nat][1..] == [];
    assert NextJoins(s1, s2, 0) && JoinStep(s1, s2, 0);
    run := Extend(run, s1, s2);
    var s3 := s2.(reg := GATED.(once := map[0 := Draining]));
    assert TeardownBegins(s2, s3, 0) && JoinStep(s2, s3, 0);
    run := Extend(run, s2, s3);
    var s4 := s2.(reg := GATED.(once := map[0 := Unsubscribed], tears := map[0 := 1]));
    assert Drains(s3, s4, 0) && RuntimeStep(s3, s4, 0);
    run := Extend(run, s3, s4);
    var s5 := s2.(reg := DONE);
    assert {NAME} - {NAME} == {} && {} + {0} == {0};
    assert Drops(s4, s5, 0) && RuntimeStep(s4, s5, 0);
    run := Extend(run, s4, s5);
  }

  lemma RunToReleased() returns (run: seq<State>)
    ensures Reaches(run, State(NoStart, DONE, OURS.(stops := map[0 := RunRelease(false)]), Workers(true, 1, false)))
  {
    run := RunToTorn();
    var s1 := State(NoStart, DONE, OURS.(stops := map[0 := Tearing(0, [], [])]), IDLE);
    var s2 := s1.(turn := OURS.(stops := map[0 := Joining([], [])]));
    assert TeardownReturns(s1, s2, 0) && JoinStep(s1, s2, 0);
    run := Extend(run, s1, s2);
    var s3 := s1.(turn := OURS.(stops := map[0 := Release(false)]));
    assert JoiningDone(s2, s3, 0) && JoinStep(s2, s3, 0);
    run := Extend(run, s2, s3);
    var s4 := State(NoStart, DONE, OURS.(stops := map[0 := RunRelease(false)]), Workers(true, 1, false));
    assert Claims(s3, s4, 0) && ReleaseStep(s3, s4, 0);
    run := Extend(run, s3, s4);
  }

  /** A plugin is started, stopped and torn down, the workers are released, and Stop returns
      nil. */
  lemma CleanLifeHappens() returns (run: seq<State>)
    ensures IsRun(run)
    ensures var s := run[|run| - 1];
      && 0 in s.turn.stops && s.turn.stops[0] == Returned(true) && s.workers.finished
      && 0 in s.reg.names && s.reg.names[0] == NAME && 0 in s.reg.torn
  {
    run := RunToReleased();
    var s1 := State(NoStart, DONE, OURS.(stops := map[0 := RunRelease(false)]), Workers(true, 1, false));
    var s2 := s1.(turn := OURS.(stops := map[0 := Ending(false)]), workers := Workers(true, 1, true));
    assert Finishes(s1, s2, 0) && ReleaseStep(s1, s2, 0);
    run := Extend(run, s1, s2);
    var s3 := s2.(turn := OURS.(stops := map[0 := HandOn(false)], inFlight := None));
    assert Ends(s2, s3, 0) && TurnStep(s2, s3, 0);
    run := Extend(run, s2, s3);
    var s4 := s2.(turn := OURS.(stops := map[0 := Returned(true)], inFlight := None, handedOn := {0}));
    assert HandsOn(s3, s4, 0) && TurnStep(s3, s4, 0);
    run := Extend(run, s3, s4);
  }
}

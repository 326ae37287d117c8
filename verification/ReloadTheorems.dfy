/** What holds in every reachable state, and on every run, of the hot reload. */
module ReloadTheorems {
  import opened Common
  import opened Admission
  import opened Endless
  import opened ReloadModel
  import opened ReloadControl
  import opened ReloadBarrier

  predicate Inv(s: State) {
    ControlInv(s) && BarrierInv(s)
  }

  lemma InitInv(s: State)
    requires Init(s)
    ensures Inv(s)
  {
    assert Within(s.callers) == {};
  }

  lemma ForwardKeepsControl(s: State, t: State)
    requires ControlInv(s) && (CutoffStep(s, t) || DrainStep(s, t) || SnapshotStep(s, t) || PromoteStep(s, t))
    ensures ControlInv(t)
  {
    if CutoffStep(s, t) {
      CutoffKeepsControl(s, t);
    } else if DrainStep(s, t) {
      DrainKeepsControl(s, t);
    } else if SnapshotStep(s, t) {
      SnapshotKeepsControl(s, t);
    } else {
      PromoteKeepsControl(s, t);
    }
  }

  lemma HostKeepsControl(s: State, t: State)
    requires ControlInv(s) && HostStep(s, t)
    ensures ControlInv(t)
  {
    if JoinStep(s, t) {
      JoinKeepsControl(s, t);
    } else if RetireStep(s, t) {
      RetireKeepsControl(s, t);
    } else if RollbackStep(s, t) {
      RollbackKeepsControl(s, t);
    } else if SupervisorStep(s, t) {
      SupervisorKeepsControl(s, t);
    } else if RestartStep(s, t) {
      RestartKeepsControl(s, t);
    } else {
      ForwardKeepsControl(s, t);
    }
  }

  lemma HostKeepsBarrier(s: State, t: State)
    requires RoutingInv(s.host, s.cur.gen, s.gate.open, s.routed) && BarrierInv(s) && HostStep(s, t)
    requires s.succ.Some? ==> s.succ.value.gen == s.cur.gen + 1
    ensures BarrierInv(t)
  {
    if CutoffStep(s, t) {
      CutoffKeepsBarrier(s, t);
    } else if DrainStep(s, t) {
      DrainKeepsBarrier(s, t);
    } else if SnapshotStep(s, t) {
      DrainKeepsBarrier(s, t);
    } else if PromoteStep(s, t) {
      PromoteKeepsBarrier(s, t);
    } else if JoinStep(s, t) {
      JoinKeepsBarrier(s, t);
    } else if RetireStep(s, t) {
      RetireKeepsBarrier(s, t);
    } else if RollbackStep(s, t) {
      RollbackKeepsBarrier(s, t);
    } else if SupervisorStep(s, t) {
      SupervisorKeepsBarrier(s, t);
    } else {
      RestartKeepsBarrier(s, t);
    }
  }

  lemma CallsKeepInv(s: State, t: State)
    requires Inv(s) && CallStep(s, t)
    ensures Inv(t)
  {
    CallsKeepControl(s, t);
    if c :| CallerMove(s, t, c) {
      MoveKeepsBarrier(s, t, c);
    } else if c, stream :| CallerArrives(s, t, c, stream) {
      ArrivalKeepsBarrier(s, t, c, stream);
    } else {
      var c :| TableStep(s, t, c);
      TerminalKeepsBarrier(s, t, c);
    }
  }

  lemma NextKeepsInv(s: State, t: State)
    requires Inv(s) && Next(s, t)
    ensures Inv(t)
  {
    if HostStep(s, t) {
      HostKeepsControl(s, t);
      HostKeepsBarrier(s, t);
    } else if CallStep(s, t) {
      CallsKeepInv(s, t);
    } else {
      InstancesKeepBarrier(s, t);
      if CurStep(s, t) {
        CurKeepsControl(s, t);
      } else {
        SuccKeepsControl(s, t);
      }
    }
  }

  lemma {:induction false} Reachable(run: seq<State>, i: nat)
    requires IsRun(run) && i < |run|
    ensures Inv(run[i])
  {
    if i == 0 {
      InitInv(run[0]);
    } else {
      Reachable(run, i - 1);
      NextKeepsInv(run[i - 1], run[i]);
    }
  }

  // ---------------------------------------------------------------- safety of serving

  /** Whenever a call could be admitted, some instance is routed and every mutator of it
      is running: a caller never enters a frozen or half-frozen plugin. */
  lemma OpenAdmissionMeansRunningMutators(run: seq<State>, i: nat)
    requires IsRun(run) && i < |run| && run[i].gate.open
    ensures var s := run[i];
      && s.routed.Some?
      && (s.routed == Some(s.cur.gen) || (s.succ.Some? && s.routed == Some(s.succ.value.gen)))
      && (s.routed == Some(s.cur.gen) ==> AllRunning(s.cur))
      && (s.succ.Some? && s.routed == Some(s.succ.value.gen) ==> AllRunning(s.succ.value))
  {
    Reachable(run, i);
  }

  /** What Run promises at its return. Admission is closed exactly for a crash-equivalent
      outcome; an unpromoted successor is gone; a rolled-back predecessor is routed and runs
      unfrozen; a promoted successor is routed and was handed the bytes its predecessor
      saved, and its restorer accepted them or they were none. */
  predicate AsPromised(s: State) {
    && s.host.Done?
    && (s.gate.open <==> s.host.outcome != CrashEquivalent)
    && (!s.host.outcome.Promoted? ==> s.succ.Some? ==> s.succ.value.pc == Exited)
    && (s.host.outcome == RolledBack ==>
          s.routed == Some(s.cur.gen) && AllRunning(s.cur) && (s.cur.pc == Serving || s.cur.pc == Exited))
    && (s.host.outcome.Promoted? ==>
          && s.succ.Some? && s.routed == Some(s.succ.value.gen) && s.cur.saved.Some?
          && if s.succ.value.restorer
             then s.succ.value.restored == Some((FORMAT_VERSION, s.cur.saved.value))
             else s.cur.saved.value == [])
  }

  /** A transaction ends promoted, rolled back or crash-equivalent, and each as promised. */
  lemma OutcomeOfRun(run: seq<State>, i: nat)
    requires IsRun(run) && i < |run| && run[i].host.Done?
    ensures AsPromised(run[i])
  {
    Reachable(run, i);
  }

  // ---------------------------------------------------------------- publication barrier

  /** From Close returning nil to the next Open no caller is inside its
      admission-to-publication span; while Close waits, its signal is outstanding exactly
      as long as someone is inside; and every true Enter has at most its one Leave. */
  lemma CutoffJoinsEveryPublisher(run: seq<State>, i: nat)
    requires IsRun(run) && i < |run|
    ensures var s := run[i];
      && s.gate.active == |Within(s.callers)|
      && (Joined(s.host) ==> Within(s.callers) == {} && !s.gate.open)
      && (s.host.CloseWait? ==> (s.host.signal in s.gate.signalled <==> Within(s.callers) == {}))
      && (forall c :: c in s.callers ==> Balanced(s.callers[c]))
  {
    Reachable(run, i);
    var s := run[i];
    forall c | c in s.callers
      ensures Balanced(s.callers[c])
    {
      assert CallInv(c, s.callers, s.table);
    }
  }

  predicate Publishes(s: State, t: State, c: CallId) {
    c in s.table && c in t.table && s.table[c].phase == Submitted && t.table[c].phase == Published
  }

  /** No request is published, and no publication is still in flight, on a generation
      that a reload promoted past. */
  lemma NoPublicationBehindAPromotion(run: seq<State>, i: nat, c: CallId)
    requires IsRun(run) && i + 1 < |run|
    ensures c in run[i].callers && Holds(run[i].callers[c].pc).Some? ==>
              Holds(run[i].callers[c].pc).value !in run[i].past
    ensures Publishes(run[i], run[i + 1], c) ==> run[i + 1].table[c].gen !in run[i + 1].past
  {
    var s, t := run[i], run[i + 1];
    Reachable(run, i);
    if Publishes(s, t, c) {
      PublicationIsAMove(s, t, c);
      assert CallInv(c, s.callers, s.table);
      assert Holds(s.callers[c].pc) == Some(s.table[c].gen);
    }
  }

  lemma PublicationIsAMove(s: State, t: State, c: CallId)
    requires Next(s, t) && Publishes(s, t, c)
    ensures CallerMove(s, t, c) && t.past == s.past && t.table[c].gen == s.table[c].gen
  {
    if HostStep(s, t) {
      HostPublishesNothing(s, t, c);
    } else {
      assert CallStep(s, t);
      var d :| CallerMove(s, t, d);
      assert d == c;
    }
  }

  // ---------------------------------------------------------------- the response join

  /** A retirement that reports no straggler ended no unary call of the generation it
      retired as outcome-unknown. */
  lemma NoStragglersMeansNothingReaped(run: seq<State>, i: nat, c: CallId)
    requires IsRun(run) && i < |run| && run[i].host.Done? && run[i].host.outcome == Promoted(0)
    requires c in run[i].reaped
    ensures c in run[i].table && run[i].table[c].gen != run[i].cur.gen
  {
    Reachable(run, i);
  }

  lemma MoveShrinksRetiredTable(s: State, t: State, d: CallId, c: CallId)
    requires BarrierInv(s) && CallerMove(s, t, d)
    requires c in t.table && t.table[c].gen in s.past && t.table[c].phase == Published
    ensures c in s.table && s.table[c] == t.table[c]
  {
    assert CallInv(d, s.callers, s.table);
    assert Holds(s.callers[d].pc).Some? ==> Holds(s.callers[d].pc).value !in s.past;
  }

  lemma HostPublishesNothing(s: State, t: State, c: CallId)
    requires HostStep(s, t) && c in t.table && t.table[c].phase == Published
    ensures c in s.table && s.table[c] == t.table[c]
  {
  }

  /** While the predecessor is being retired its published calls only ever end: the count
      the join waits on never rises. */
  lemma RetiredTableShrinks(run: seq<State>, i: nat, c: CallId)
    requires IsRun(run) && i + 1 < |run|
    requires c in run[i + 1].table && run[i + 1].table[c].gen in run[i].past && run[i + 1].table[c].phase == Published
    ensures c in run[i].table && run[i].table[c].phase == Published
  {
    Reachable(run, i);
    var s, t := run[i], run[i + 1];
    if HostStep(s, t) {
      HostPublishesNothing(s, t, c);
    } else if d :| CallerMove(s, t, d) {
      MoveShrinksRetiredTable(s, t, d, c);
    }
  }

  // ---------------------------------------------------------------- every run ends

  predicate InTransaction(h: HostPc) {
    !h.Idle? && !h.Done? && !h.Detach? && !h.DetachWait? && !h.CrashFail? && !h.Wire? && !h.WireOpen?
  }

  /** How much of a transaction is left: phase, polls of the join, calls left to visit. */
  function Remaining(h: HostPc): (nat, nat, nat) {
    match h
    case CloseWait(_) => (22, 0, 0)
    case CutoffDone => (21, 0, 0)
    case DrainSend => (20, 0, 0)
    case DrainWait => (19, 0, 0)
    case SnapshotWait => (18, 0, 0)
    case SnapshotAck(_) => (17, 0, 0)
    case Spawn(_) => (16, 0, 0)
    case RestoreSend(_) => (15, 0, 0)
    case RestoreWait(_) => (14, 0, 0)
    case Promote(_) => (13, 0, 0)
    case PromoteOpen(_) => (12, 0, 0)
    case RunOpen(_) => (11, 0, 0)
    case Join(_, polls) => (10, 2 * polls + 2, 0)
    case Scan(_, polls, last, todo, _) => (10, if last then 1 else 2 * polls + 3, |todo|)
    case StopAdmission(_, _) => (9, 0, 0)
    case FailInFlight(_, _, todo) => (8, 0, |todo|)
    case Reap(_, _) => (7, 0, 0)
    case TeardownSuccessor => (5, 0, 0)
    case ResumeSend => (4, 0, 0)
    case ResumeWait => (3, 0, 0)
    case ReopenOld => (2, 0, 0)
    case CutoffAbort => (1, 0, 0)
    case _ => (0, 0, 0)
  }

  predicate Less(a: (nat, nat, nat), b: (nat, nat, nat)) {
    a.0 < b.0 || (a.0 == b.0 && (a.1 < b.1 || (a.1 == b.1 && a.2 < b.2)))
  }

  lemma ForwardProgress(s: State, t: State)
    requires CutoffStep(s, t) || DrainStep(s, t) || SnapshotStep(s, t)
    requires InTransaction(s.host)
    ensures Less(Remaining(t.host), Remaining(s.host)) && (InTransaction(t.host) || t.host.Done?)
  {
  }

  lemma PromoteProgress(s: State, t: State)
    requires PromoteStep(s, t)
    ensures Less(Remaining(t.host), Remaining(s.host)) && InTransaction(t.host)
  {
  }

  lemma ScanProgress(s: State, t: State)
    requires JoinStep(s, t) && s.host.Scan? && s.host.todo != {}
    ensures Less(Remaining(t.host), Remaining(s.host)) && InTransaction(t.host)
  {
    var c :| c in s.host.todo && t.host.Scan? && t.host.todo == s.host.todo - {c}
             && t.host.polls == s.host.polls && t.host.last == s.host.last;
    assert |s.host.todo - {c}| == |s.host.todo| - 1;
  }

  lemma JoinProgress(s: State, t: State)
    requires JoinStep(s, t)
    ensures Less(Remaining(t.host), Remaining(s.host)) && InTransaction(t.host)
  {
    if s.host.Scan? && s.host.todo != {} {
      ScanProgress(s, t);
    }
  }

  lemma RetireProgress(s: State, t: State)
    requires RetireStep(s, t)
    ensures Less(Remaining(t.host), Remaining(s.host)) && (InTransaction(t.host) || t.host.Done?)
  {
    if s.host.FailInFlight? && s.host.todo != {} {
      var c :| c in s.host.todo && t.host == FailInFlight(s.host.snap, s.host.stragglers, s.host.todo - {c});
      assert |s.host.todo - {c}| == |s.host.todo| - 1;
    }
  }

  lemma RollbackProgress(s: State, t: State)
    requires RollbackStep(s, t)
    ensures Less(Remaining(t.host), Remaining(s.host)) && (InTransaction(t.host) || t.host.Done?)
  {
  }

  /** Every step of Run brings it strictly closer to its return, whatever the plugin,
      the successor and the callers do in between. */
  lemma RunMakesProgress(s: State, t: State)
    requires HostStep(s, t) && InTransaction(s.host)
    ensures Less(Remaining(t.host), Remaining(s.host))
    ensures InTransaction(t.host) || t.host.Done?
  {
    if CutoffStep(s, t) || DrainStep(s, t) || SnapshotStep(s, t) {
      ForwardProgress(s, t);
    } else if PromoteStep(s, t) {
      PromoteProgress(s, t);
    } else if JoinStep(s, t) {
      JoinProgress(s, t);
    } else if RetireStep(s, t) {
      RetireProgress(s, t);
    } else {
      RollbackProgress(s, t);
    }
  }

  lemma OthersLeaveRunWhereItIs(s: State, t: State)
    requires Next(s, t) && !HostStep(s, t)
    ensures t.host == s.host
  {
    if CallStep(s, t) {
      CallsLeaveControlAlone(s, t);
    }
  }

  // ---------------------------------------------------------------- and it does end

  /** In a transaction the host always has a step: every wait is bounded, and every call its
      teardown still has to visit is in the table. */
  lemma HostNeverStuck(s: State) returns (t: State)
    requires Inv(s) && InTransaction(s.host)
    ensures HostStep(s, t)
  {
    match s.host
    case CloseWait(signal) => t := s.(gate := CloseExpired(s.gate, signal), host := CutoffAbort);
    case CutoffDone => t := s.(host := DrainSend);
    case CutoffAbort => t := s.(gate := Opened(s.gate), host := Done(RolledBack, NO_SNAPSHOT));
    case DrainSend => t := s.(host := CutoffAbort);
    case DrainWait | SnapshotWait | SnapshotAck(_) => t := s.(host := TeardownSuccessor);
    case Spawn(_) | RestoreSend(_) | RestoreWait(_) | Promote(_) => t := s.(host := TeardownSuccessor);
    case PromoteOpen(snap) => t := s.(gate := Opened(s.gate), host := RunOpen(snap));
    case RunOpen(_) | Join(_, _) | Scan(_, _, _, _, _) => t := JoinNeverStuck(s);
    case StopAdmission(_, _) | FailInFlight(_, _, _) | Reap(_, _) => t := RetireNeverStuck(s);
    case _ => t := RollbackNeverStuck(s);
  }

  lemma JoinNeverStuck(s: State) returns (t: State)
    requires s.host.RunOpen? || s.host.Join? || s.host.Scan?
    ensures JoinStep(s, t)
  {
    match s.host
    case RunOpen(snap) => t := s.(gate := Opened(s.gate), host := Join(snap, 0));
    case Join(snap, polls) =>
      t := s.(host := Scan(snap, if polls > 0 then polls - 1 else 0, polls == 0, CallsOf(s, s.cur.gen), 0));
    case Scan(snap, polls, last, todo, count) =>
      if todo == {} {
        t := s.(host := if last || count == 0 then StopAdmission(snap, count) else Join(snap, polls));
      } else {
        var c :| c in todo;
        t := s.(host := Scan(snap, polls, last, todo - {c},
                             if c in s.table && s.table[c].phase == Published then count + 1 else count));
      }
  }

  lemma RetireNeverStuck(s: State) returns (t: State)
    requires JoinInv(s.host, s.cur.gen, s.table, s.reaped)
    requires s.host.StopAdmission? || s.host.FailInFlight? || s.host.Reap?
    ensures RetireStep(s, t)
  {
    match s.host
    case StopAdmission(snap, n) =>
      var next := FailInFlight(snap, n, CallsOf(s, s.cur.gen));
      t := if s.routed == Some(s.cur.gen)
           then s.(routed := None, gate := CloseExpired(Closing(s.gate), s.gate.nextSignal), host := next)
           else s.(host := next);
    case FailInFlight(snap, n, todo) =>
      if todo == {} {
        t := s.(host := Reap(snap, n));
      } else {
        var c :| c in todo;
        t := s.(table := s.table[c := s.table[c].(phase := Terminal)],
                reaped := if s.table[c].phase == Published then s.reaped + {c} else s.reaped,
                host := FailInFlight(snap, n, todo - {c}));
      }
    case Reap(snap, n) => t := s.(cur := s.cur.(pc := Exited), host := Done(Promoted(n), snap));
  }

  lemma RollbackNeverStuck(s: State) returns (t: State)
    requires s.host.TeardownSuccessor? || s.host.ResumeSend? || s.host.ResumeWait? || s.host.ReopenOld?
    ensures RollbackStep(s, t)
  {
    match s.host
    case TeardownSuccessor =>
      t := s.(succ := if s.succ.Some? then Some(s.succ.value.(pc := Exited)) else None, host := ResumeSend);
    case ResumeSend => t := s.(host := Done(CrashEquivalent, NO_SNAPSHOT));
    case ResumeWait => t := s.(host := Done(CrashEquivalent, NO_SNAPSHOT));
    case ReopenOld => t := s.(gate := Opened(s.gate), host := Done(RolledBack, NO_SNAPSHOT));
  }

  /** Consecutive steps of the host alone. */
  ghost predicate HostChain(chain: seq<State>) {
    |chain| > 0 && forall i :: 0 <= i < |chain| - 1 ==> HostStep(chain[i], chain[i + 1])
  }

  /** From every reachable point of a transaction the host by itself can bring it to its
      return. */
  lemma {:induction false} HostAloneFinishes(s: State) returns (chain: seq<State>)
    requires Inv(s) && InTransaction(s.host)
    ensures HostChain(chain) && chain[0] == s && chain[|chain| - 1].host.Done?
    decreases Remaining(s.host).0, Remaining(s.host).1, Remaining(s.host).2
  {
    var t := HostNeverStuck(s);
    RunMakesProgress(s, t);
    if t.host.Done? {
      chain := [s, t];
    } else {
      NextKeepsInv(s, t);
      var rest := HostAloneFinishes(t);
      chain := [s] + rest;
      ChainFrom(s, rest);
    }
  }

  lemma ChainFrom(s: State, rest: seq<State>)
    requires HostChain(rest) && HostStep(s, rest[0])
    ensures HostChain([s] + rest)
  {
    var chain := [s] + rest;
    forall i | 0 <= i < |chain| - 1
      ensures HostStep(chain[i], chain[i + 1])
    {
      assert i > 0 ==> chain[i] == rest[i - 1];
      assert chain[i + 1] == rest[i];
    }
  }

  /** Every run that stands in a transaction has a continuation in which it returns. */
  lemma EveryRunCanReturn(run: seq<State>) returns (longer: seq<State>)
    requires IsRun(run) && InTransaction(run[|run| - 1].host)
    ensures IsRun(longer) && run <= longer && AsPromised(longer[|longer| - 1])
  {
    Reachable(run, |run| - 1);
    var chain := HostAloneFinishes(run[|run| - 1]);
    longer := run + chain[1..];
    ChainExtendsRun(run, chain);
    assert longer[|longer| - 1] == chain[|chain| - 1];
    OutcomeOfRun(longer, |longer| - 1);
  }

  lemma ChainExtendsRun(run: seq<State>, chain: seq<State>)
    requires IsRun(run) && HostChain(chain) && chain[0] == run[|run| - 1]
    ensures IsRun(run + chain[1..])
  {
    var n, longer := |run| - 1, run + chain[1..];
    forall i | 0 <= i < |longer| - 1
      ensures Next(longer[i], longer[i + 1])
    {
      if i < n {
        assert longer[i] == run[i] && longer[i + 1] == run[i + 1];
      } else {
        assert longer[i] == chain[i - n] && longer[i + 1] == chain[i - n + 1];
      }
    }
  }

  ghost predicate HostEnabled(s: State) {
    exists t :: HostStep(s, t)
  }

  ghost predicate StepsAt(f: nat -> State, k: nat) {
    Next(f(k), f(k + 1))
  }

  ghost predicate HostMovesAt(f: nat -> State, k: nat) {
    HostStep(f(k), f(k + 1))
  }

  /** At time j the host moves, or has nothing to do. */
  ghost predicate HostServedAt(f: nat -> State, j: nat) {
    HostMovesAt(f, j) || !HostEnabled(f(j))
  }

  ghost predicate HostServedFrom(f: nat -> State, k: nat) {
    exists j: nat :: k <= j && HostServedAt(f, j)
  }

  /** An endless run in which the host is not passed over forever while it has a step. */
  ghost predicate FairRun(f: nat -> State) {
    Init(f(0)) && (forall k: nat :: StepsAt(f, k)) && (forall k: nat :: HostServedFrom(f, k))
  }

  lemma PrefixIsARun(f: nat -> State, k: nat)
    requires FairRun(f)
    ensures IsRun(Prefix(f, k))
  {
    var run := Prefix(f, k);
    forall i | 0 <= i < |run| - 1
      ensures Next(run[i], run[i + 1])
    {
      assert StepsAt(f, i);
    }
  }

  lemma EnabledInTransaction(f: nat -> State, k: nat)
    requires FairRun(f) && InTransaction(f(k).host)
    ensures HostEnabled(f(k))
  {
    PrefixIsARun(f, k);
    EnabledInRun(Prefix(f, k), k);
  }

  lemma EnabledInRun(run: seq<State>, k: nat)
    requires IsRun(run) && k < |run| && InTransaction(run[k].host)
    ensures HostEnabled(run[k])
  {
    Reachable(run, k);
    var t := HostNeverStuck(run[k]);
  }

  lemma HostStaysUnlessItMoves(f: nat -> State, k: nat)
    requires FairRun(f)
    ensures HostMovesAt(f, k) || f(k + 1).host == f(k).host
  {
    assert StepsAt(f, k);
    if !HostMovesAt(f, k) {
      OthersLeaveRunWhereItIs(f(k), f(k + 1));
    }
  }

  /** In a transaction a fair run serves the host by letting it move. */
  lemma ServedHostMoves(f: nat -> State, i: nat) returns (j: nat)
    requires FairRun(f)
    ensures i <= j && (InTransaction(f(j).host) ==> HostMovesAt(f, j))
  {
    assert HostServedFrom(f, i);
    j :| i <= j && HostServedAt(f, j);
    if InTransaction(f(j).host) {
      EnabledInTransaction(f, j);
    }
  }

  lemma NextHostMove(f: nat -> State, i: nat) returns (m: nat)
    requires FairRun(f) && InTransaction(f(i).host)
    ensures i <= m && f(m).host == f(i).host && HostMovesAt(f, m)
  {
    var pc := (k: nat) => f(k).host;
    var moves := (k: nat) => HostMovesAt(f, k);
    forall k: nat
      ensures StaysAt(pc, moves, k)
    {
      HostStaysUnlessItMoves(f, k);
    }
    var j := ServedHostMoves(f, i);
    m := FirstMove(pc, moves, i, j);
  }

  /** Some later state is one host step further: closer to the return, or at it. */
  ghost predicate Advances(f: nat -> State, i: nat) {
    exists m: nat :: i < m && Closer(f(i).host, f(m).host)
  }

  predicate Closer(g: HostPc, h: HostPc) {
    Less(Remaining(h), Remaining(g)) && (InTransaction(h) || h.Done?)
  }

  lemma FairRunAdvances(f: nat -> State, i: nat)
    requires FairRun(f) && InTransaction(f(i).host)
    ensures Advances(f, i)
  {
    var m := NextHostMove(f, i);
    RunMakesProgress(f(m), f(m + 1));
    assert Closer(f(i).host, f(m + 1).host);
  }

  lemma {:induction false} AdvancingRunReturns(f: nat -> State, i: nat) returns (n: nat)
    requires InTransaction(f(i).host) && forall k: nat :: InTransaction(f(k).host) ==> Advances(f, k)
    ensures i < n && f(n).host.Done?
    decreases Remaining(f(i).host).0, Remaining(f(i).host).1, Remaining(f(i).host).2
  {
    assert Advances(f, i);
    var m: nat :| i < m && Closer(f(i).host, f(m).host);
    if f(m).host.Done? {
      n := m;
    } else {
      n := AdvancingRunReturns(f, m);
    }
  }

  /** No chain of host steps stays in a transaction for ever, from any state whatever. */
  lemma HostChainsAreFinite(f: nat -> State) returns (n: nat)
    requires InTransaction(f(0).host) && forall k: nat :: HostMovesAt(f, k)
    ensures f(n).host.Done?
  {
    forall k: nat | InTransaction(f(k).host)
      ensures Advances(f, k)
    {
      assert HostMovesAt(f, k);
      RunMakesProgress(f(k), f(k + 1));
      assert Closer(f(k).host, f(k + 1).host);
    }
    n := AdvancingRunReturns(f, 0);
  }

  /** Whatever plugin, successor and callers do, and however often they go first, a
      transaction returns promoted, rolled back or crash-equivalent, and as promised. */
  lemma EveryFairRunReturns(f: nat -> State, i: nat) returns (n: nat)
    requires FairRun(f) && InTransaction(f(i).host)
    ensures i < n && AsPromised(f(n))
  {
    forall k: nat | InTransaction(f(k).host)
      ensures Advances(f, k)
    {
      FairRunAdvances(f, k);
    }
    n := AdvancingRunReturns(f, i);
    PrefixIsARun(f, n);
    OutcomeOfRun(Prefix(f, n), n);
  }
}

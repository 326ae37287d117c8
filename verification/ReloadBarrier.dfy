/**
  What every step of the reload keeps about callers: the gate counts exactly the callers
  inside their admission-to-publication span, a promotion happens only when that count
  is zero, no caller can hold a generation routing was promoted past, and the response
  join that follows a promotion only ever sees the retired table shrink.
*/
module ReloadBarrier {
  import opened Common
  import opened Admission
  import opened ReloadModel
  import opened ReloadControl

  /** Close returned nil and admission has not reopened since. */
  predicate Joined(h: HostPc) {
    match h
    case CutoffDone | DrainSend | DrainWait | SnapshotWait | SnapshotAck(_) | Spawn(_) | RestoreSend(_)
       | RestoreWait(_) | Promote(_) | PromoteOpen(_) | TeardownSuccessor | ResumeSend | ResumeWait | ReopenOld => true
    case Done(outcome, _) => outcome == CrashEquivalent
    case Detach => true
    case _ => false
  }

  predicate GateInv(host: HostPc, gate: Gate, callers: map<CallId, Caller>) {
    && gate.active == |Within(callers)|
    && (forall n :: n in gate.signalled ==> n < gate.nextSignal)
    && (gate.drained.Some? ==> gate.drained.value < gate.nextSignal && gate.drained.value !in gate.signalled)
    && (Joined(host) ==> gate.active == 0)
    && (host.CloseWait? ==>
          && host.signal < gate.nextSignal
          && if gate.drained == Some(host.signal) then gate.active > 0
             else host.signal in gate.signalled && gate.active == 0)
  }

  function Holds(pc: CallerPc): Option<nat> {
    match pc
    case Routed(g) => Some(g)
    case Registered(g) => Some(g)
    case Sending(g) => Some(g)
    case Enqueued(g) => Some(g)
    case _ => None
  }

  /** Exactly one Leave for each Enter that returned true, none for the others. */
  predicate Balanced(c: Caller) {
    match c.pc
    case Refused => c.enters == 0 && c.leaves == 0
    case Outside => c.enters == 1 && c.leaves == 1
    case _ => c.enters == 1 && c.leaves == 0
  }

  predicate CallInv(c: CallId, callers: map<CallId, Caller>, table: map<CallId, Entry>)
    requires c in callers
  {
    && Balanced(callers[c])
    && (callers[c].pc.Inside? || callers[c].pc.Routed? ==> c !in table)
    && (callers[c].pc.Registered? || callers[c].pc.Sending? ==> c in table && table[c].gen == callers[c].pc.gen)
    && (c in table && table[c].phase == Submitted ==> callers[c].pc.Registered?)
  }

  predicate CallersInv(callers: map<CallId, Caller>, table: map<CallId, Entry>) {
    && (forall c :: c in table ==> c in callers)
    && (forall c :: c in callers ==> CallInv(c, callers, table))
  }

  /** No caller in the barrier holds a generation a promotion moved past. */
  predicate PastInv(gen: nat, committed: bool, routed: Option<nat>, past: set<nat>, callers: map<CallId, Caller>) {
    && (forall g :: g in past ==> g <= gen)
    && (gen in past <==> committed)
    && (routed.Some? ==> routed.value !in past)
    && (forall c :: c in callers && Holds(callers[c].pc).Some? ==> Holds(callers[c].pc).value !in past)
  }

  predicate Unowed(table: map<CallId, Entry>, gen: nat, todo: set<CallId>) {
    forall c :: c in table && table[c].gen == gen && !table[c].stream && c !in todo ==> table[c].phase != Published
  }

  /** Calls reaped by a retirement belong to a generation already left behind. */
  predicate ReapedBefore(reaped: set<CallId>, table: map<CallId, Entry>, gen: nat) {
    forall c :: c in reaped ==> c in table && table[c].gen < gen
  }

  predicate ReapedUpTo(reaped: set<CallId>, table: map<CallId, Entry>, gen: nat) {
    forall c :: c in reaped ==> c in table && table[c].gen <= gen
  }

  predicate JoinInv(host: HostPc, gen: nat, table: map<CallId, Entry>, reaped: set<CallId>) {
    match host
    case Scan(_, _, _, todo, count) => (count == 0 ==> Unowed(table, gen, todo)) && ReapedBefore(reaped, table, gen)
    case StopAdmission(_, n) => (n == 0 ==> Unowed(table, gen, {})) && ReapedBefore(reaped, table, gen)
    case FailInFlight(_, n, todo) =>
      && ReapedUpTo(reaped, table, gen)
      && (forall c :: c in todo ==> c in table && table[c].gen == gen && !table[c].stream)
      && (n == 0 ==> Unowed(table, gen, {}) && ReapedBefore(reaped, table, gen))
    case Reap(_, n) => ReapedUpTo(reaped, table, gen) && (n == 0 ==> ReapedBefore(reaped, table, gen))
    case Done(outcome, _) =>
      if outcome.Promoted?
      then ReapedUpTo(reaped, table, gen) && (outcome.stragglers == 0 ==> ReapedBefore(reaped, table, gen))
      else ReapedBefore(reaped, table, gen)
    case CrashFail(todo) =>
      ReapedBefore(reaped, table, gen) && forall c :: c in todo ==> c in table && table[c].gen == gen
    case _ => ReapedBefore(reaped, table, gen)
  }

  predicate BarrierInv(s: State) {
    && GateInv(s.host, s.gate, s.callers)
    && CallersInv(s.callers, s.table)
    && PastInv(s.cur.gen, Committed(s.host), s.routed, s.past, s.callers)
    && JoinInv(s.host, s.cur.gen, s.table, s.reaped)
  }

  // ---------------------------------------------------------------- host and instances

  lemma InstancesKeepBarrier(s: State, t: State)
    requires BarrierInv(s) && (CurStep(s, t) || SuccStep(s, t))
    ensures BarrierInv(t)
  {
    if CurStep(s, t) {
      var j: Instance :| InstanceStep(s.cur, j) && t == s.(cur := j);
      StepKeepsGeneration(s.cur, j);
    }
  }

  lemma CutoffKeepsGate(s: State, t: State)
    requires GateInv(s.host, s.gate, s.callers) && CutoffStep(s, t)
    ensures GateInv(t.host, t.gate, t.callers)
    ensures t == s.(host := t.host, gate := t.gate)
    ensures !Committed(s.host) && !Committed(t.host)
    ensures !s.host.Done? && (t.host.Done? ==> !t.host.outcome.Promoted?)
    ensures t.host.CloseWait? || t.host == CutoffDone || t.host == CutoffAbort || t.host == DrainSend || t.host.Done?
  {
  }

  lemma CutoffKeepsBarrier(s: State, t: State)
    requires BarrierInv(s) && CutoffStep(s, t)
    ensures BarrierInv(t)
  {
    CutoffKeepsGate(s, t);
  }

  /** Phases 2 and 3 touch only the predecessor and the program counter. */
  lemma DrainOnlyMovesTheHost(s: State, t: State)
    requires DrainStep(s, t) || SnapshotStep(s, t)
    ensures t == s.(host := t.host, cur := t.cur) && t.cur.gen == s.cur.gen
    ensures !Committed(s.host) && !Committed(t.host) && Joined(s.host)
    ensures t.host == CutoffAbort || Joined(t.host)
    ensures !t.host.CloseWait? && !t.host.Done? && !t.host.Detach?
  {
  }

  lemma DrainKeepsBarrier(s: State, t: State)
    requires BarrierInv(s) && (DrainStep(s, t) || SnapshotStep(s, t))
    ensures BarrierInv(t)
  {
    DrainOnlyMovesTheHost(s, t);
  }

  lemma PromoteKeepsBarrier(s: State, t: State)
    requires RoutingInv(s.host, s.cur.gen, s.gate.open, s.routed) && BarrierInv(s) && PromoteStep(s, t)
    requires s.succ.Some? ==> s.succ.value.gen == s.cur.gen + 1
    ensures BarrierInv(t)
  {
    assert s.host.Promote? ==> Within(s.callers) == {};
    assert forall c :: c in s.callers && Holds(s.callers[c].pc).Some? ==> c in Within(s.callers);
  }

  lemma ScanKeepsJoin(s: State, t: State)
    requires JoinInv(s.host, s.cur.gen, s.table, s.reaped) && JoinStep(s, t)
    ensures JoinInv(t.host, t.cur.gen, t.table, t.reaped)
  {
  }

  lemma JoinKeepsBarrier(s: State, t: State)
    requires BarrierInv(s) && JoinStep(s, t)
    ensures BarrierInv(t)
  {
    ScanKeepsJoin(s, t);
  }

  /** Ending one call leaves the callers' relation to the table intact. */
  lemma EndingKeepsCallers(callers: map<CallId, Caller>, table: map<CallId, Entry>, c: CallId)
    requires CallersInv(callers, table) && c in table
    ensures CallersInv(callers, table[c := table[c].(phase := Terminal)])
  {
    forall d | d in callers
      ensures CallInv(d, callers, table[c := table[c].(phase := Terminal)])
    {
      assert CallInv(d, callers, table);
    }
  }

  lemma RetireKeepsJoin(s: State, t: State)
    requires JoinInv(s.host, s.cur.gen, s.table, s.reaped) && RetireStep(s, t)
    ensures JoinInv(t.host, t.cur.gen, t.table, t.reaped)
  {
  }

  lemma RetireKeepsBarrier(s: State, t: State)
    requires RoutingInv(s.host, s.cur.gen, s.gate.open, s.routed) && BarrierInv(s) && RetireStep(s, t)
    ensures BarrierInv(t)
  {
    RetireKeepsJoin(s, t);
    if s.host.FailInFlight? && s.host.todo != {} {
      var c :| c in s.host.todo && c in s.table && t.table == s.table[c := s.table[c].(phase := Terminal)];
      EndingKeepsCallers(s.callers, s.table, c);
    }
  }

  lemma RollbackKeepsBarrier(s: State, t: State)
    requires BarrierInv(s) && RollbackStep(s, t)
    ensures BarrierInv(t)
  {
  }

  lemma SupervisorKeepsBarrier(s: State, t: State)
    requires RoutingInv(s.host, s.cur.gen, s.gate.open, s.routed) && BarrierInv(s) && SupervisorStep(s, t)
    requires s.succ.Some? ==> s.succ.value.gen == s.cur.gen + 1
    ensures BarrierInv(t)
  {
  }

  lemma CrashFailKeepsBarrier(s: State, t: State)
    requires BarrierInv(s) && s.host.CrashFail? && RestartStep(s, t)
    ensures BarrierInv(t)
  {
    if s.host.todo != {} {
      var c :| c in s.host.todo && c in s.table
               && t == s.(table := s.table[c := s.table[c].(phase := Terminal)], host := CrashFail(s.host.todo - {c}));
      CrashEndKeepsBarrier(s, t, c);
    }
  }

  lemma CrashEndKeepsBarrier(s: State, t: State, c: CallId)
    requires BarrierInv(s) && s.host.CrashFail? && c in s.host.todo && c in s.table
    requires t == s.(table := s.table[c := s.table[c].(phase := Terminal)], host := CrashFail(s.host.todo - {c}))
    ensures BarrierInv(t)
  {
    EndingKeepsCallers(s.callers, s.table, c);
  }

  lemma DetachKeepsBarrier(s: State, t: State)
    requires BarrierInv(s) && (s.host.Idle? || s.host.Detach?) && DetachRouting(s, t)
    requires s.host.Idle? ==> s.routed == Some(s.cur.gen)
    ensures BarrierInv(t)
  {
  }

  lemma RestartKeepsBarrier(s: State, t: State)
    requires RoutingInv(s.host, s.cur.gen, s.gate.open, s.routed) && BarrierInv(s) && RestartStep(s, t)
    ensures BarrierInv(t)
  {
    if s.host.CrashFail? {
      CrashFailKeepsBarrier(s, t);
    } else if s.host.Idle? || s.host.Detach? {
      DetachKeepsBarrier(s, t);
    } else {
      WireKeepsBarrier(s, t);
    }
  }

  lemma WireKeepsBarrier(s: State, t: State)
    requires RoutingInv(s.host, s.cur.gen, s.gate.open, s.routed) && BarrierInv(s) && RestartStep(s, t)
    requires s.host.DetachWait? || s.host.Wire? || s.host.WireOpen?
    ensures BarrierInv(t)
  {
  }

  // ---------------------------------------------------------------- callers

  /** A change of one caller's place changes the count by at most that caller. */
  lemma WithinUpdate(callers: map<CallId, Caller>, c: CallId, me: Caller)
    ensures |Within(callers[c := me])| ==
      |Within(callers)| - (if c in callers && InBarrier(callers[c]) then 1 else 0) + (if InBarrier(me) then 1 else 0)
  {
    var rest := Within(callers) - {c};
    assert Within(callers[c := me]) == if InBarrier(me) then rest + {c} else rest;
    assert Within(callers) == if c in callers && InBarrier(callers[c]) then rest + {c} else rest;
  }

  lemma MoveKeepsGate(s: State, t: State, c: CallId)
    requires GateInv(s.host, s.gate, s.callers) && CallerMove(s, t, c)
    requires c in s.callers && Balanced(s.callers[c])
    ensures GateInv(t.host, t.gate, t.callers)
  {
    WithinUpdate(s.callers, c, t.callers[c]);
  }

  lemma MoveKeepsCallers(s: State, t: State, c: CallId)
    requires CallersInv(s.callers, s.table) && CallerMove(s, t, c)
    ensures CallersInv(t.callers, t.table)
  {
    assert CallInv(c, s.callers, s.table);
    assert t.callers == s.callers[c := t.callers[c]];
    assert forall d :: d != c ==> (d in t.table <==> d in s.table) && (d in t.table ==> t.table[d] == s.table[d]);
    assert CallInv(c, t.callers, t.table);
    forall d | d in t.callers && d != c
      ensures CallInv(d, t.callers, t.table)
    {
      assert CallInv(d, s.callers, s.table);
    }
  }

  lemma MoveKeepsPast(s: State, t: State, c: CallId)
    requires PastInv(s.cur.gen, Committed(s.host), s.routed, s.past, s.callers) && CallerMove(s, t, c)
    ensures PastInv(t.cur.gen, Committed(t.host), t.routed, t.past, t.callers)
  {
    assert Holds(s.callers[c].pc).Some? ==> Holds(s.callers[c].pc).value !in s.past;
    assert t.callers == s.callers[c := t.callers[c]];
    assert Holds(t.callers[c].pc).Some? ==> Holds(t.callers[c].pc).value !in s.past;
  }

  /** An entry of another generation, or one added before any promotion, is not part of
      the join. */
  lemma EntryKeepsJoin(host: HostPc, gen: nat, table: map<CallId, Entry>, reaped: set<CallId>, c: CallId, e: Entry)
    requires JoinInv(host, gen, table, reaped)
    requires Committed(host) ==> e.gen != gen
    requires c in table ==> e.gen == table[c].gen && e.stream == table[c].stream
    ensures JoinInv(host, gen, table[c := e], reaped)
  {
  }

  /** A caller that adds or publishes an entry holds its generation, so the entry is not
      of a generation already left behind. */
  lemma MoveKeepsJoin(s: State, t: State, c: CallId)
    requires BarrierInv(s) && CallerMove(s, t, c)
    ensures JoinInv(t.host, t.cur.gen, t.table, t.reaped)
  {
    assert CallInv(c, s.callers, s.table);
    if t.table != s.table {
      assert Holds(s.callers[c].pc).Some?;
      EntryKeepsJoin(s.host, s.cur.gen, s.table, s.reaped, c, t.table[c]);
    }
  }

  lemma MoveKeepsBarrier(s: State, t: State, c: CallId)
    requires BarrierInv(s) && CallerMove(s, t, c)
    ensures BarrierInv(t)
  {
    assert CallInv(c, s.callers, s.table);
    MoveKeepsGate(s, t, c);
    MoveKeepsCallers(s, t, c);
    MoveKeepsPast(s, t, c);
    MoveKeepsJoin(s, t, c);
  }

  lemma ArrivalKeepsBarrier(s: State, t: State, c: CallId, stream: bool)
    requires RoutingInv(s.host, s.cur.gen, s.gate.open, s.routed) && BarrierInv(s) && CallerArrives(s, t, c, stream)
    ensures BarrierInv(t)
  {
    WithinUpdate(s.callers, c, t.callers[c]);
  }

  lemma TerminalKeepsBarrier(s: State, t: State, c: CallId)
    requires BarrierInv(s) && TableStep(s, t, c)
    ensures BarrierInv(t)
  {
    EndingKeepsCallers(s.callers, s.table, c);
  }
}

/**
  When a reload can still promote. Up to the routing swap the host reads one awaited answer
  at a time, from the predecessor and then from the successor; whether the transaction can
  end promoted is decided by what they have already sent or can still send.
*/
module ReloadPromote {
  import opened Common
  import opened Admission
  import opened ReloadModel
  import opened ReloadControl
  import opened ReloadBarrier
  import opened ReloadTheorems
  import opened ReloadRollback

  /** From the cutoff to the routing swap. */
  predicate BeforeSwap(h: HostPc) {
    h.CloseWait? || h == CutoffDone || h == DrainSend || h == DrainWait || h == SnapshotWait || h.SnapshotAck?
    || h.Spawn? || h.RestoreSend? || h.RestoreWait? || h.Promote?
  }

  /** From the routing swap to the retirement of the predecessor. */
  predicate AfterSwap(h: HostPc) {
    h.PromoteOpen? || h.RunOpen? || h.Join? || h.Scan? || h.StopAdmission? || h.FailInFlight? || h.Reap?
  }

  /** The next message the predecessor sends can be its snapshot. */
  predicate WillSave(i: Instance) {
    if i.outbox != [] then i.outbox[0].SaveState? else i.pc.SavingState? || i.pc.SendSaveState?
  }

  /** The next message the predecessor sends can be DrainAck, and the one after its snapshot. */
  predicate WillDrain(i: Instance) {
    if i.outbox != [] then i.outbox[0] == DrainAck && WillSave(i.(outbox := i.outbox[1..]))
    else i.pc.Serving? || i.pc.Freezing? || i.pc.AwaitDrained? || i.pc.SendDrainAck?
  }

  /** A successor with nothing to apply a state with takes only an empty one. */
  predicate CanApply(u: Instance, p: Snapshot) {
    u.restorer || p.content == []
  }

  /** The successor's answer to the restore can be that it is ready. */
  predicate WillAccept(u: Instance, p: Snapshot) {
    if u.outbox != [] then u.outbox[0] == RestoreAck(true)
    else match u.pc
      case AwaitRestore => u.inbox != [] && CanApply(u, p)
      case ApplyRestore(_) => CanApply(u, p)
      case SendRestoreAck(ready) => ready
      case _ => false
  }

  predicate Promotable(s: State) {
    match s.host
    case CloseWait(_) | CutoffDone | DrainSend => s.cur.pc == Serving && s.cur.outbox == []
    case DrainWait => WillDrain(s.cur)
    case SnapshotWait => WillSave(s.cur)
    case SnapshotAck(_) | Spawn(_) | Promote(_) => true
    case RestoreSend(snap) => s.succ.Some? && s.succ.value.pc == AwaitRestore && CanApply(s.succ.value, snap)
    case RestoreWait(snap) => s.succ.Some? && WillAccept(s.succ.value, snap)
    case _ => false
  }

  ghost predicate PromotesIn(s: State, chain: seq<State>) {
    && Continuation(s, chain)
    && chain[|chain| - 1].host.Done? && chain[|chain| - 1].host.outcome.Promoted?
  }

  ghost predicate CanPromote(s: State) {
    exists chain :: PromotesIn(s, chain)
  }

  // ---------------------------------------------------------------- once lost

  predicate GivingUp(h: HostPc) {
    h == CutoffAbort || h == TeardownSuccessor || h == ResumeSend || h == ResumeWait || h == ReopenOld
    || (h.Done? && !h.outcome.Promoted?)
  }

  predicate Lost(s: State) {
    GivingUp(s.host) || (BeforeSwap(s.host) && !Promotable(s))
  }

  lemma NeverSaves(i: Instance, j: Instance)
    requires Draining(i) && !WillSave(i) && InstanceStep(i, j)
    ensures !WillSave(j)
  {
    OutboxOnlyGrows(i, j);
    if i.outbox == [] {
      SilentNeverSaves(i, j);
    }
  }

  lemma SilentNeverSaves(i: Instance, j: Instance)
    requires Draining(i) && i.outbox == [] && !i.pc.SavingState? && !i.pc.SendSaveState? && InstanceStep(i, j)
    ensures !WillSave(j)
  {
  }

  /** With its DrainAck already queued, what the predecessor does next decides the snapshot. */
  lemma AckedNeverSaves(i: Instance, j: Instance)
    requires Draining(i) && i.outbox != [] && i.outbox[0] == DrainAck && InstanceStep(i, j)
    requires !WillSave(i.(outbox := i.outbox[1..]))
    ensures j.outbox != [] && j.outbox[0] == DrainAck && !WillSave(j.(outbox := j.outbox[1..]))
  {
    OutboxOnlyGrows(i, j);
    assert j.outbox[0] == i.outbox[0];
    if |i.outbox| > 1 {
      assert j.outbox[1] == i.outbox[1];
    }
  }

  lemma NeverDrains(i: Instance, j: Instance)
    requires Draining(i) && !WillDrain(i) && InstanceStep(i, j)
    ensures !WillDrain(j)
  {
    OutboxOnlyGrows(i, j);
    if i.outbox == [] {
      SilentNeverDrains(i, j);
    } else if i.outbox[0] == DrainAck {
      AckedNeverSaves(i, j);
    } else {
      assert j.outbox[0] == i.outbox[0];
    }
  }

  lemma SilentNeverDrains(i: Instance, j: Instance)
    requires Draining(i) && i.outbox == [] && !WillDrain(i) && InstanceStep(i, j)
    ensures !WillDrain(j)
  {
  }

  lemma NeverAccepts(u: Instance, v: Instance, p: Snapshot)
    requires Restoring(u, p) && !WillAccept(u, p) && InstanceStep(u, v)
    ensures !WillAccept(v, p)
  {
    OutboxOnlyGrows(u, v);
    if u.outbox != [] {
      assert v.outbox[0] == u.outbox[0];
    }
  }

  lemma CurStaysLost(s: State, t: State)
    requires ControlInv(s) && Lost(s) && CurStep(s, t)
    ensures Lost(t)
  {
    var j: Instance :| InstanceStep(s.cur, j) && t == s.(cur := j);
    if s.host == DrainWait {
      NeverDrains(s.cur, j);
    } else if s.host == SnapshotWait {
      NeverSaves(s.cur, j);
    } else if s.host.CloseWait? || s.host == CutoffDone || s.host == DrainSend {
      QuietStep(s.cur, j);
      OutboxOnlyGrows(s.cur, j);
      ExitedStays(s.cur, j);
    }
  }

  lemma ExitedStays(i: Instance, j: Instance)
    requires InstanceStep(i, j)
    ensures i.pc == Exited ==> j.pc == Exited
  {
  }

  lemma SuccStaysLost(s: State, t: State)
    requires ControlInv(s) && Lost(s) && SuccStep(s, t)
    ensures Lost(t)
  {
    var j: Instance :| InstanceStep(s.succ.value, j) && t == s.(succ := Some(j));
    if s.host.RestoreWait? {
      NeverAccepts(s.succ.value, j, s.host.snap);
    } else if s.host.RestoreSend? {
      UnsentSuccessor(s.succ.value, j);
    }
  }

  lemma UnsentSuccessor(u: Instance, v: Instance)
    requires (u.pc == AwaitRestore || u.pc == Exited) && u.inbox == [] && InstanceStep(u, v)
    ensures v.restorer == u.restorer && (v.pc == AwaitRestore ==> u.pc == AwaitRestore)
  {
  }

  lemma CutoffStaysLost(s: State, t: State)
    requires ControlInv(s) && Lost(s) && InTransaction(s.host) && (CutoffStep(s, t) || DrainStep(s, t))
    ensures Lost(t)
  {
  }

  lemma LaterStaysLost(s: State, t: State)
    requires ControlInv(s) && Lost(s) && InTransaction(s.host)
    requires SnapshotStep(s, t) || PromoteStep(s, t) || RollbackStep(s, t)
    ensures Lost(t)
  {
  }

  lemma HostStaysLost(s: State, t: State)
    requires ControlInv(s) && Lost(s) && InTransaction(s.host) && HostStep(s, t)
    ensures Lost(t)
  {
    if CutoffStep(s, t) || DrainStep(s, t) {
      CutoffStaysLost(s, t);
    } else {
      LaterStaysLost(s, t);
    }
  }

  lemma StaysLost(s: State, t: State)
    requires Inv(s) && Lost(s) && InTransaction(s.host) && Next(s, t)
    ensures Inv(t) && Lost(t)
  {
    NextKeepsInv(s, t);
    if HostStep(s, t) {
      HostStaysLost(s, t);
    } else if CurStep(s, t) {
      CurStaysLost(s, t);
    } else if SuccStep(s, t) {
      SuccStaysLost(s, t);
    } else {
      CallsLeaveControlAlone(s, t);
    }
  }

  lemma LostForGood(s: State, chain: seq<State>, k: nat)
    requires Inv(s) && Lost(s) && Continuation(s, chain) && k < |chain|
    ensures Inv(chain[k]) && Lost(chain[k])
  {
    var good := iset t: State | Inv(t) && Lost(t);
    forall i: nat | i < |chain| - 1
      ensures Carried(chain, good, i)
    {
      assert Link(chain, i);
      if chain[i] in good {
        StaysLost(chain[i], chain[i + 1]);
      }
    }
    CarriedAlong(chain, good, k);
  }

  // ---------------------------------------------------------------- past the swap

  predicate Won(s: State) {
    AfterSwap(s.host) || (s.host.Done? && s.host.outcome.Promoted?)
  }

  lemma StaysWon(s: State, t: State)
    requires Won(s) && InTransaction(s.host) && Next(s, t)
    ensures Won(t)
  {
    if HostStep(s, t) {
      HostStaysWon(s, t);
    } else {
      OthersLeaveRunWhereItIs(s, t);
    }
  }

  lemma HostStaysWon(s: State, t: State)
    requires Won(s) && InTransaction(s.host) && HostStep(s, t)
    ensures Won(t)
  {
    if s.host.PromoteOpen? {
      assert PromoteStep(s, t);
    } else if s.host.RunOpen? || s.host.Join? || s.host.Scan? {
      assert JoinStep(s, t);
    } else {
      assert RetireStep(s, t);
    }
  }

  lemma WonForGood(s: State, chain: seq<State>, k: nat)
    requires Won(s) && Continuation(s, chain) && k < |chain|
    ensures Won(chain[k])
  {
    var good := iset t: State | Won(t);
    forall i: nat | i < |chain| - 1
      ensures Carried(chain, good, i)
    {
      assert Link(chain, i);
      if chain[i] in good {
        StaysWon(chain[i], chain[i + 1]);
      }
    }
    CarriedAlong(chain, good, k);
  }

  /** The host by itself retires the predecessor and returns. */
  lemma {:induction false} SwapReturns(s: State) returns (chain: seq<State>)
    requires Inv(s) && AfterSwap(s.host)
    ensures PromotesIn(s, chain)
    decreases Remaining(s.host).0, Remaining(s.host).1, Remaining(s.host).2
  {
    var t := HostNeverStuck(s);
    RunMakesProgress(s, t);
    HostStaysWon(s, t);
    if t.host.Done? {
      chain := [t];
    } else {
      NextKeepsInv(s, t);
      chain := SwapReturns(t);
    }
    Prepend(s, t, chain);
    chain := [s] + chain;
  }

  // ---------------------------------------------------------------- the successor's half

  lemma PromoteReturns(s: State) returns (chain: seq<State>)
    requires Inv(s) && s.host.Promote?
    ensures PromotesIn(s, chain)
  {
    var t := s.(routed := Some(s.succ.value.gen), past := s.past + {s.cur.gen}, host := PromoteOpen(s.host.snap));
    assert PromoteStep(s, t);
    NextKeepsInv(s, t);
    chain := SwapReturns(t);
    Prepend(s, t, chain);
    chain := [s] + chain;
  }

  function RestoreDistance(u: Instance): nat {
    match u.pc
    case AwaitRestore => 3
    case ApplyRestore(_) => 2
    case _ => 1
  }

  /** The successor's own next step towards its ready ack. */
  lemma AcceptStep(u: Instance, p: Snapshot) returns (v: Instance)
    requires Restoring(u, p) && Verified(p) && u.outbox == [] && WillAccept(u, p)
    ensures InstanceStep(u, v) && WillAccept(v, p)
    ensures v.outbox == [] ==> RestoreDistance(v) < RestoreDistance(u)
  {
    match u.pc
    case AwaitRestore => v := u.(pc := ApplyRestore(p), inbox := u.inbox[1..]);
    case ApplyRestore(offered) =>
      v := if u.restorer then u.(pc := SendRestoreAck(true), restored := Some((offered.version, offered.content)))
           else u.(pc := SendRestoreAck(true));
    case SendRestoreAck(ready) => v := u.(pc := Serving, outbox := u.outbox + [RestoreAck(ready)]);
    assert RestoreStep(u, v);
  }

  lemma {:induction false} RestoreReturns(s: State) returns (chain: seq<State>)
    requires Inv(s) && s.host.RestoreWait? && Promotable(s)
    ensures PromotesIn(s, chain)
    decreases if s.succ.value.outbox == [] then 1 else 0, RestoreDistance(s.succ.value)
  {
    var t;
    if s.succ.value.outbox != [] {
      t := s.(succ := Some(Pop(s.succ.value)), host := Promote(s.host.snap));
      assert PromoteStep(s, t);
      NextKeepsInv(s, t);
      chain := PromoteReturns(t);
    } else {
      var v := AcceptStep(s.succ.value, s.host.snap);
      t := s.(succ := Some(v));
      assert SuccStep(s, t);
      NextKeepsInv(s, t);
      chain := RestoreReturns(t);
    }
    Prepend(s, t, chain);
    chain := [s] + chain;
  }

  lemma RestoreSendReturns(s: State) returns (chain: seq<State>)
    requires Inv(s) && s.host.RestoreSend? && Promotable(s)
    ensures PromotesIn(s, chain)
  {
    var t := s.(succ := Some(Push(s.succ.value, Restore(s.host.snap))), host := RestoreWait(s.host.snap));
    assert PromoteStep(s, t);
    NextKeepsInv(s, t);
    chain := RestoreReturns(t);
    Prepend(s, t, chain);
    chain := [s] + chain;
  }

  lemma SpawnReturns(s: State) returns (chain: seq<State>)
    requires Inv(s) && s.host.Spawn?
    ensures PromotesIn(s, chain)
  {
    var u := Instance(s.cur.gen + 1, AwaitRestore, [], true, [], [], None, None);
    var t := s.(succ := Some(u), host := RestoreSend(s.host.snap));
    assert Fresh(u, s.cur.gen + 1, AwaitRestore);
    assert PromoteStep(s, t);
    NextKeepsInv(s, t);
    chain := RestoreSendReturns(t);
    Prepend(s, t, chain);
    chain := [s] + chain;
  }

  // ---------------------------------------------------------------- the predecessor's half

  lemma SnapshotAckReturns(s: State) returns (chain: seq<State>)
    requires Inv(s) && s.host.SnapshotAck?
    ensures PromotesIn(s, chain)
  {
    var t := s.(cur := Push(s.cur, SaveStateAck), host := Spawn(s.host.snap));
    assert SnapshotStep(s, t);
    NextKeepsInv(s, t);
    chain := SpawnReturns(t);
    Prepend(s, t, chain);
    chain := [s] + chain;
  }

  /** How far the predecessor is from having sent its snapshot. */
  function SaveDistance(i: Instance): (nat, nat) {
    match i.pc
    case Serving => (6, 0)
    case Freezing(n) => (5, if n < |i.running| then |i.running| - n else 0)
    case AwaitDrained => (4, 0)
    case SendDrainAck => (3, 0)
    case SavingState => (2, 0)
    case _ => (1, 0)
  }

  predicate CloserToSave(j: Instance, i: Instance) {
    SaveDistance(j).0 < SaveDistance(i).0
    || (SaveDistance(j).0 == SaveDistance(i).0 && SaveDistance(j).1 < SaveDistance(i).1)
  }

  lemma SaveNext(i: Instance) returns (j: Instance)
    requires i.outbox == [] && WillSave(i)
    ensures InstanceStep(i, j) && WillSave(j) && (j.outbox == [] ==> CloserToSave(j, i))
  {
    if i.pc.SavingState? {
      var payload: seq<byte> := [];
      j := i.(saved := Some(payload), pc := SendSaveState(Snapshot(payload, true, |payload|, FORMAT_VERSION)));
    } else {
      j := i.(pc := AwaitSaveOutcome, outbox := i.outbox + [SaveState(i.pc.built)]);
    }
    assert SaveStep(i, j);
  }

  lemma DrainNext(i: Instance) returns (j: Instance)
    requires Draining(i) && i.outbox == [] && WillDrain(i)
    ensures InstanceStep(i, j) && WillDrain(j) && (j.outbox == [] ==> CloserToSave(j, i))
  {
    match i.pc
    case Serving =>
      j := i.(pc := Freezing(0), inbox := i.inbox[1..]);
      assert ServeStep(i, j);
    case Freezing(n) =>
      j := if n < |i.running| then i.(pc := Freezing(n + 1), running := i.running[n := false])
           else i.(pc := AwaitDrained);
      assert FreezeStep(i, j);
    case AwaitDrained =>
      j := i.(pc := SendDrainAck);
      assert DrainedStep(i, j);
    case SendDrainAck =>
      j := i.(pc := SavingState, outbox := i.outbox + [DrainAck]);
      assert DrainedStep(i, j);
  }

  lemma {:induction false} SnapshotReturns(s: State) returns (chain: seq<State>)
    requires Inv(s) && s.host == SnapshotWait && Promotable(s)
    ensures PromotesIn(s, chain)
    decreases if s.cur.outbox == [] then 1 else 0, SaveDistance(s.cur).0, SaveDistance(s.cur).1
  {
    var t;
    if s.cur.outbox != [] {
      t := s.(cur := Pop(s.cur), host := SnapshotAck(s.cur.outbox[0].snap));
      assert SnapshotStep(s, t);
      NextKeepsInv(s, t);
      chain := SnapshotAckReturns(t);
    } else {
      var j := SaveNext(s.cur);
      t := s.(cur := j);
      assert CurStep(s, t);
      NextKeepsInv(s, t);
      chain := SnapshotReturns(t);
    }
    Prepend(s, t, chain);
    chain := [s] + chain;
  }

  lemma {:induction false} DrainReturns(s: State) returns (chain: seq<State>)
    requires Inv(s) && s.host == DrainWait && Promotable(s)
    ensures PromotesIn(s, chain)
    decreases if s.cur.outbox == [] then 1 else 0, SaveDistance(s.cur).0, SaveDistance(s.cur).1
  {
    var t;
    if s.cur.outbox != [] {
      t := s.(cur := Pop(s.cur), host := SnapshotWait);
      assert DrainStep(s, t);
      NextKeepsInv(s, t);
      chain := SnapshotReturns(t);
    } else {
      var j := DrainNext(s.cur);
      t := s.(cur := j);
      assert CurStep(s, t);
      NextKeepsInv(s, t);
      chain := DrainReturns(t);
    }
    Prepend(s, t, chain);
    chain := [s] + chain;
  }

  // ---------------------------------------------------------------- the cutoff

  lemma DrainSendReturns(s: State) returns (chain: seq<State>)
    requires Inv(s) && s.host == DrainSend && Promotable(s)
    ensures PromotesIn(s, chain)
  {
    var t := s.(cur := Push(s.cur, Drain), host := DrainWait);
    assert DrainStep(s, t);
    NextKeepsInv(s, t);
    chain := DrainReturns(t);
    Prepend(s, t, chain);
    chain := [s] + chain;
  }

  lemma CutoffReturns(s: State) returns (chain: seq<State>)
    requires Inv(s) && s.host == CutoffDone && Promotable(s)
    ensures PromotesIn(s, chain)
  {
    var t := s.(host := DrainSend);
    assert CutoffStep(s, t);
    NextKeepsInv(s, t);
    chain := DrainSendReturns(t);
    Prepend(s, t, chain);
    chain := [s] + chain;
  }

  function LeaveDistance(pc: CallerPc): nat {
    match pc
    case Inside => 5
    case Registered(_) => 4
    case Routed(_) => 3
    case Sending(_) => 2
    case _ => 1
  }

  /** A caller inside the barrier has a step that brings it closer to its Leave. */
  lemma CallerAdvances(s: State, c: CallId) returns (t: State)
    requires CallersInv(s.callers, s.table) && c in Within(s.callers)
    ensures CallerMove(s, t, c) && t.host == s.host && t.cur == s.cur && t.succ == s.succ
    ensures c in t.callers && t.callers == s.callers[c := t.callers[c]]
    ensures InBarrier(t.callers[c]) ==> LeaveDistance(t.callers[c].pc) < LeaveDistance(s.callers[c].pc)
  {
    assert CallInv(c, s.callers, s.table);
    var me := s.callers[c];
    match me.pc
    case Inside =>
      t := s.(callers := s.callers[c := me.(pc := if s.routed.Some? then Routed(s.routed.value) else Leaving)]);
    case Routed(_) => t := s.(callers := s.callers[c := me.(pc := Leaving)]);
    case Registered(gen) =>
      if s.table[c].phase == Submitted {
        t := s.(callers := s.callers[c := me.(pc := Sending(gen))],
                table := s.table[c := s.table[c].(phase := Published)]);
      } else {
        t := s.(callers := s.callers[c := me.(pc := Leaving)]);
      }
    case Sending(_) => t := s.(callers := s.callers[c := me.(pc := Leaving)]);
    case Enqueued(_) | Leaving =>
      t := s.(callers := s.callers[c := me.(pc := Outside, leaves := me.leaves + 1)], gate := Left(s.gate));
  }

  lemma JoinedReturns(s: State) returns (chain: seq<State>)
    requires Inv(s) && s.host.CloseWait? && Promotable(s) && Within(s.callers) == {}
    ensures PromotesIn(s, chain)
  {
    var t := s.(host := CutoffDone);
    assert CutoffStep(s, t);
    NextKeepsInv(s, t);
    chain := CutoffReturns(t);
    Prepend(s, t, chain);
    chain := [s] + chain;
  }

  /** The callers inside leave one after the other, c next. */
  lemma {:induction false} CloseReturns(s: State, c: CallId) returns (chain: seq<State>)
    requires Inv(s) && s.host.CloseWait? && Promotable(s) && c in Within(s.callers)
    ensures PromotesIn(s, chain)
    decreases |Within(s.callers)|, LeaveDistance(s.callers[c].pc)
  {
    var t := CallerAdvances(s, c);
    assert CallStep(s, t);
    NextKeepsInv(s, t);
    WithinUpdate(s.callers, c, t.callers[c]);
    if c in Within(t.callers) {
      chain := CloseReturns(t, c);
    } else if Within(t.callers) == {} {
      chain := JoinedReturns(t);
    } else {
      var d :| d in Within(t.callers);
      chain := CloseReturns(t, d);
    }
    Prepend(s, t, chain);
    chain := [s] + chain;
  }

  lemma PromotableReturns(s: State) returns (chain: seq<State>)
    requires Inv(s) && BeforeSwap(s.host) && Promotable(s)
    ensures PromotesIn(s, chain)
  {
    match s.host
    case CloseWait(_) =>
      if Within(s.callers) == {} {
        chain := JoinedReturns(s);
      } else {
        var c :| c in Within(s.callers);
        chain := CloseReturns(s, c);
      }
    case CutoffDone => chain := CutoffReturns(s);
    case DrainSend => chain := DrainSendReturns(s);
    case DrainWait => chain := DrainReturns(s);
    case SnapshotWait => chain := SnapshotReturns(s);
    case SnapshotAck(_) => chain := SnapshotAckReturns(s);
    case Spawn(_) => chain := SpawnReturns(s);
    case RestoreSend(_) => chain := RestoreSendReturns(s);
    case RestoreWait(_) => chain := RestoreReturns(s);
    case Promote(_) => chain := PromoteReturns(s);
  }

  // ---------------------------------------------------------------- theorems

  lemma LostNeverPromotes(s: State, chain: seq<State>)
    requires Inv(s) && Lost(s)
    ensures !PromotesIn(s, chain)
  {
    if PromotesIn(s, chain) {
      LostForGood(s, chain, |chain| - 1);
    }
  }

  /** At every point of every transaction before the routing swap: it can still end promoted
      exactly when it is promotable. */
  lemma PromotesExactlyWhenPromotable(run: seq<State>, i: nat)
    requires IsRun(run) && i < |run| && BeforeSwap(run[i].host)
    ensures CanPromote(run[i]) <==> Promotable(run[i])
  {
    Reachable(run, i);
    if Promotable(run[i]) {
      var chain := PromotableReturns(run[i]);
    } else {
      forall chain
        ensures !PromotesIn(run[i], chain)
      {
        LostNeverPromotes(run[i], chain);
      }
    }
  }

  /** Once the host gives up, nothing promotes. */
  lemma GivingUpIsFinal(run: seq<State>, i: nat, chain: seq<State>)
    requires IsRun(run) && i < |run| && GivingUp(run[i].host)
    requires Continuation(run[i], chain) && chain[|chain| - 1].host.Done?
    ensures !chain[|chain| - 1].host.outcome.Promoted?
  {
    Reachable(run, i);
    LostForGood(run[i], chain, |chain| - 1);
  }

  /** Once routing has moved, nothing but a promotion can be the outcome. */
  lemma SwapIsFinal(run: seq<State>, i: nat, chain: seq<State>)
    requires IsRun(run) && i < |run| && AfterSwap(run[i].host)
    requires Continuation(run[i], chain) && chain[|chain| - 1].host.Done?
    ensures chain[|chain| - 1].host.outcome.Promoted?
  {
    WonForGood(run[i], chain, |chain| - 1);
  }

  // ---------------------------------------------------------------- a promotion

  const STATE: seq<byte> := [7]
  const SNAP := Snapshot(STATE, true, 1, FORMAT_VERSION)
  const OLD := Instance(0, Serving, [], false, [], [], None, None)
  const SAVED := OLD.(saved := Some(STATE), pc := AwaitSaveOutcome)
  const NEW := Instance(1, AwaitRestore, [], true, [], [], None, None)
  const READY := NEW.(pc := Serving, restored := Some((FORMAT_VERSION, STATE)))
  const CUT := State(DrainWait, OLD, None, Gate(false, 0, None, {}, 0), Some(0), {}, map[], map[], {})
  const MOVED := CUT.(cur := SAVED.(inbox := [SaveStateAck]), succ := Some(READY), routed := Some(1), past := {0})
  const OPEN := MOVED.(gate := Gate(true, 0, None, {}, 0))

  ghost predicate Reaches(run: seq<State>, s: State) {
    IsRun(run) && run[|run| - 1] == s
  }

  lemma Extend(run: seq<State>, s: State, t: State) returns (longer: seq<State>)
    requires Reaches(run, s) && Next(s, t)
    ensures Reaches(longer, t)
  {
    longer := run + [t];
    forall i | 0 <= i < |longer| - 1
      ensures Next(longer[i], longer[i + 1])
    {
      assert i < |run| - 1 ==> longer[i] == run[i] && longer[i + 1] == run[i + 1];
    }
  }

  lemma RunToDrain() returns (run: seq<State>)
    ensures Reaches(run, CUT.(cur := OLD.(inbox := [Drain])))
  {
    var s0 := CUT.(host := Idle, gate := Gate(true, 0, None, {}, 0));
    var s1, s2 := CUT.(host := CutoffDone), CUT.(host := DrainSend);
    run := [s0];
    assert CutoffStep(s0, s1) && CutoffStep(s1, s2);
    run := Extend(run, s0, s1);
    run := Extend(run, s1, s2);
    assert OLD.inbox + [Drain] == [Drain];
    assert DrainStep(s2, CUT.(cur := OLD.(inbox := [Drain])));
    run := Extend(run, s2, CUT.(cur := OLD.(inbox := [Drain])));
  }

  lemma OldMoves(run: seq<State>, s: State, j: Instance) returns (longer: seq<State>)
    requires Reaches(run, s) && InstanceStep(s.cur, j)
    ensures Reaches(longer, s.(cur := j))
  {
    assert CurStep(s, s.(cur := j));
    longer := Extend(run, s, s.(cur := j));
  }

  lemma RunToAck() returns (run: seq<State>)
    ensures Reaches(run, CUT.(cur := OLD.(pc := SavingState, outbox := [DrainAck])))
  {
    run := RunToDrain();
    var c1, c2 := OLD.(pc := Freezing(0)), OLD.(pc := AwaitDrained);
    var c3, c4 := OLD.(pc := SendDrainAck), OLD.(pc := SavingState, outbox := [DrainAck]);
    assert ServeStep(OLD.(inbox := [Drain]), c1);
    assert FreezeStep(c1, c2);
    assert DrainedStep(c2, c3) && DrainedStep(c3, c4);
    run := OldMoves(run, CUT.(cur := OLD.(inbox := [Drain])), c1);
    run := OldMoves(run, CUT.(cur := c1), c2);
    run := OldMoves(run, CUT.(cur := c2), c3);
    run := OldMoves(run, CUT.(cur := c3), c4);
  }

  lemma RunToSnapshot() returns (run: seq<State>)
    ensures Reaches(run, CUT.(host := SnapshotWait, cur := SAVED.(outbox := [SaveState(SNAP)])))
  {
    run := RunToAck();
    var s1 := CUT.(cur := OLD.(pc := SavingState, outbox := [DrainAck]));
    var s2 := CUT.(host := SnapshotWait, cur := OLD.(pc := SavingState));
    assert DrainStep(s1, s2);
    run := Extend(run, s1, s2);
    var built := OLD.(saved := Some(STATE), pc := SendSaveState(SNAP));
    assert |STATE| == 1;
    assert SaveStep(s2.cur, built) && SaveStep(built, SAVED.(outbox := [SaveState(SNAP)]));
    run := OldMoves(run, s2, built);
    run := OldMoves(run, s2.(cur := built), SAVED.(outbox := [SaveState(SNAP)]));
  }

  lemma RunToSpawn() returns (run: seq<State>)
    ensures Reaches(run, CUT.(host := Spawn(SNAP), cur := SAVED.(inbox := [SaveStateAck])))
  {
    run := RunToSnapshot();
    var s1 := CUT.(host := SnapshotWait, cur := SAVED.(outbox := [SaveState(SNAP)]));
    var s2 := CUT.(host := SnapshotAck(SNAP), cur := SAVED);
    var s3 := CUT.(host := Spawn(SNAP), cur := SAVED.(inbox := [SaveStateAck]));
    assert SnapshotStep(s1, s2) && SnapshotStep(s2, s3);
    run := Extend(run, s1, s2);
    run := Extend(run, s2, s3);
  }

  lemma RunToRestore() returns (run: seq<State>)
    ensures Reaches(run, MOVED.(host := RestoreWait(SNAP), succ := Some(NEW.(inbox := [Restore(SNAP)])),
                                routed := Some(0), past := {}))
  {
    run := RunToSpawn();
    var s1 := CUT.(host := Spawn(SNAP), cur := SAVED.(inbox := [SaveStateAck]));
    var s2 := s1.(host := RestoreSend(SNAP), succ := Some(NEW));
    var s3 := s2.(host := RestoreWait(SNAP), succ := Some(NEW.(inbox := [Restore(SNAP)])));
    assert Fresh(NEW, 1, AwaitRestore);
    assert PromoteStep(s1, s2);
    assert NEW.inbox + [Restore(SNAP)] == [Restore(SNAP)];
    assert PromoteStep(s2, s3);
    run := Extend(run, s1, s2);
    run := Extend(run, s2, s3);
  }

  lemma NewMoves(run: seq<State>, s: State, v: Instance) returns (longer: seq<State>)
    requires Reaches(run, s) && s.succ.Some? && InstanceStep(s.succ.value, v)
    ensures Reaches(longer, s.(succ := Some(v)))
  {
    assert SuccStep(s, s.(succ := Some(v)));
    longer := Extend(run, s, s.(succ := Some(v)));
  }

  lemma RunToReady() returns (run: seq<State>)
    ensures Reaches(run, MOVED.(host := RestoreWait(SNAP), succ := Some(READY.(outbox := [RestoreAck(true)])),
                                routed := Some(0), past := {}))
  {
    run := RunToRestore();
    var waiting := NEW.(inbox := [Restore(SNAP)]);
    var s := MOVED.(host := RestoreWait(SNAP), succ := Some(waiting), routed := Some(0), past := {});
    var u1, u2 := NEW.(pc := ApplyRestore(SNAP)), READY.(pc := SendRestoreAck(true));
    var u3 := READY.(outbox := [RestoreAck(true)]);
    assert |STATE| == 1;
    assert RestoreStep(s.succ.value, u1) && RestoreStep(u1, u2) && RestoreStep(u2, u3);
    run := NewMoves(run, s, u1);
    run := NewMoves(run, s.(succ := Some(u1)), u2);
    run := NewMoves(run, s.(succ := Some(u2)), u3);
  }

  lemma RunToOpen() returns (run: seq<State>)
    ensures Reaches(run, OPEN.(host := RunOpen(SNAP)))
  {
    run := RunToReady();
    var s1 := MOVED.(host := RestoreWait(SNAP), succ := Some(READY.(outbox := [RestoreAck(true)])),
                     routed := Some(0), past := {});
    var s2 := MOVED.(host := Promote(SNAP), routed := Some(0), past := {});
    var s3, s4 := MOVED.(host := PromoteOpen(SNAP)), OPEN.(host := RunOpen(SNAP));
    assert Pop(s1.succ.value) == READY;
    assert PromoteStep(s1, s2);
    assert {} + {0} == {0};
    assert PromoteStep(s2, s3) && PromoteStep(s3, s4);
    run := Extend(run, s1, s2);
    run := Extend(run, s2, s3);
    run := Extend(run, s3, s4);
  }

  lemma RunToStop() returns (run: seq<State>)
    ensures Reaches(run, OPEN.(host := StopAdmission(SNAP, 0)))
  {
    run := RunToOpen();
    var s1, s2 := OPEN.(host := RunOpen(SNAP)), OPEN.(host := Join(SNAP, 0));
    var s3, s4 := OPEN.(host := Scan(SNAP, 0, true, {}, 0)), OPEN.(host := StopAdmission(SNAP, 0));
    assert CallsOf(s2, 0) == {};
    assert JoinStep(s1, s2) && JoinStep(s2, s3) && JoinStep(s3, s4);
    run := Extend(run, s1, s2);
    run := Extend(run, s2, s3);
    run := Extend(run, s3, s4);
  }

  /** A reload does promote: a run hands one byte of state over and leaves nobody unanswered. */
  lemma PromotionHappens() returns (run: seq<State>)
    ensures IsRun(run) && run[|run| - 1].host == Done(Promoted(0), SNAP)
    ensures run[|run| - 1].cur.saved == Some(STATE) && run[|run| - 1].routed == Some(1)
  {
    run := RunToStop();
    var s1, s2 := OPEN.(host := StopAdmission(SNAP, 0)), OPEN.(host := FailInFlight(SNAP, 0, {}));
    var s3 := OPEN.(host := Reap(SNAP, 0));
    var s4 := OPEN.(host := Done(Promoted(0), SNAP), cur := OPEN.cur.(pc := Exited));
    assert CallsOf(s1, 0) == {};
    assert RetireStep(s1, s2) && RetireStep(s2, s3) && RetireStep(s3, s4);
    run := Extend(run, s1, s2);
    run := Extend(run, s2, s3);
    run := Extend(run, s3, s4);
  }

  // ---------------------------------------------------------------- stragglers

  /** Entries are never removed and never change generation or kind. */
  lemma EntryStays(s: State, t: State, c: CallId)
    requires Next(s, t) && c in s.table
    ensures c in t.table && t.table[c].gen == s.table[c].gen && t.table[c].stream == s.table[c].stream
  {
    if HostStep(s, t) {
      HostKeepsEntry(s, t, c);
    } else if d :| CallerMove(s, t, d) {
      MoveKeepsEntry(s, t, d, c);
    }
  }

  lemma HostKeepsEntry(s: State, t: State, c: CallId)
    requires HostStep(s, t) && c in s.table
    ensures c in t.table && t.table[c].gen == s.table[c].gen && t.table[c].stream == s.table[c].stream
  {
  }

  lemma MoveKeepsEntry(s: State, t: State, d: CallId, c: CallId)
    requires CallerMove(s, t, d) && c in s.table
    ensures c in t.table && t.table[c].gen == s.table[c].gen && t.table[c].stream == s.table[c].stream
  {
  }

  /** A unary call of generation gen stands unanswered while the host takes its last look. */
  predicate UnansweredAt(s: State, gen: nat) {
    && s.host.Scan? && s.host.last && s.cur.gen == gen
    && exists c :: c in s.host.todo && c in s.table && s.table[c].phase == Published
                   && s.table[c].gen == gen && !s.table[c].stream
  }

  ghost predicate UnansweredBefore(run: seq<State>, i: nat, gen: nat) {
    exists j: nat :: j <= i && j < |run| && UnansweredAt(run[j], gen)
  }

  predicate TodoInv(s: State) {
    s.host.Scan? ==>
      forall c :: c in s.host.todo ==> c in s.table && s.table[c].gen == s.cur.gen && !s.table[c].stream
  }

  lemma ScanKeepsTodo(s: State, t: State)
    requires JoinStep(s, t) && TodoInv(s)
    ensures TodoInv(t) && t.cur == s.cur && t.table == s.table
  {
  }

  lemma {:induction false} ScanVisitsItsCalls(run: seq<State>, i: nat)
    requires IsRun(run) && i < |run|
    ensures TodoInv(run[i])
  {
    if i > 0 {
      ScanVisitsItsCalls(run, i - 1);
      var s, t := run[i - 1], run[i];
      assert Next(s, t);
      if HostStep(s, t) {
        HostKeepsTodo(s, t);
      } else {
        OthersLeaveRunWhereItIs(s, t);
        OthersKeepGeneration(s, t);
        if t.host.Scan? {
          forall c | c in t.host.todo
            ensures c in t.table && t.table[c].gen == t.cur.gen && !t.table[c].stream
          {
            EntryStays(s, t, c);
          }
        }
      }
    }
  }

  /** Only the join counts, and only the retirement carries its count. */
  predicate Counting(h: HostPc) {
    h.Scan? || h.StopAdmission? || h.FailInFlight? || h.Reap? || (h.Done? && h.outcome.Promoted?)
  }

  lemma ForwardCountsNothing(s: State, t: State)
    requires CutoffStep(s, t) || DrainStep(s, t) || SnapshotStep(s, t) || PromoteStep(s, t)
    ensures !Counting(t.host)
  {
  }

  lemma BackwardCountsNothing(s: State, t: State)
    requires RollbackStep(s, t) || SupervisorStep(s, t) || RestartStep(s, t)
    ensures !Counting(t.host)
  {
  }

  lemma CountingSteps(s: State, t: State)
    requires HostStep(s, t) && Counting(t.host)
    ensures JoinStep(s, t) || RetireStep(s, t)
  {
    if CutoffStep(s, t) || DrainStep(s, t) || SnapshotStep(s, t) || PromoteStep(s, t) {
      ForwardCountsNothing(s, t);
    } else if RollbackStep(s, t) || SupervisorStep(s, t) || RestartStep(s, t) {
      BackwardCountsNothing(s, t);
    }
  }

  lemma RetirementScansNothing(s: State, t: State)
    requires RetireStep(s, t)
    ensures !t.host.Scan? && !t.host.StopAdmission?
  {
  }

  lemma JoinEndsAtTheStop(s: State, t: State)
    requires JoinStep(s, t)
    ensures t.host.Join? || t.host.Scan? || t.host.StopAdmission?
  {
  }

  lemma HostKeepsTodo(s: State, t: State)
    requires HostStep(s, t) && TodoInv(s)
    ensures TodoInv(t)
  {
    if t.host.Scan? {
      CountingSteps(s, t);
      if RetireStep(s, t) {
        RetirementScansNothing(s, t);
      }
      ScanKeepsTodo(s, t);
    }
  }

  lemma OthersKeepGeneration(s: State, t: State)
    requires Next(s, t) && !HostStep(s, t)
    ensures t.cur.gen == s.cur.gen
  {
    if CurStep(s, t) {
      var j: Instance :| InstanceStep(s.cur, j) && t == s.(cur := j);
      StepKeepsGeneration(s.cur, j);
    } else if CallStep(s, t) {
      CallsLeaveControlAlone(s, t);
    }
  }

  /** The host holds a positive count from its last look. */
  predicate Holding(s: State) {
    match s.host
    case Scan(_, _, last, _, count) => last && count > 0
    case StopAdmission(_, n) => n > 0
    case FailInFlight(_, n, _) => n > 0
    case Reap(_, n) => n > 0
    case Done(outcome, _) => outcome.Promoted? && outcome.stragglers > 0
    case _ => false
  }

  lemma RetirementCarriesTheCount(s: State, t: State)
    requires RetireStep(s, t) && Holding(t) && !t.host.Scan? && !t.host.StopAdmission?
    ensures t.cur.gen == s.cur.gen && Holding(s)
  {
  }

  lemma CountComesFrom(s: State, t: State)
    requires Next(s, t) && Holding(t) && TodoInv(s)
    ensures t.cur.gen == s.cur.gen && (Holding(s) || UnansweredAt(s, s.cur.gen))
  {
    if !HostStep(s, t) {
      OthersLeaveRunWhereItIs(s, t);
      OthersKeepGeneration(s, t);
    } else if t.host.Scan? || t.host.StopAdmission? {
      ScanComesFrom(s, t);
    } else {
      CountingSteps(s, t);
      if JoinStep(s, t) {
        JoinEndsAtTheStop(s, t);
      }
      RetirementCarriesTheCount(s, t);
    }
  }

  lemma ScanComesFrom(s: State, t: State)
    requires HostStep(s, t) && (t.host.Scan? || t.host.StopAdmission?) && Holding(t) && TodoInv(s)
    ensures t.cur.gen == s.cur.gen && (Holding(s) || UnansweredAt(s, s.cur.gen))
  {
    CountingSteps(s, t);
    if RetireStep(s, t) {
      RetirementScansNothing(s, t);
    }
    if s.host.Scan? && s.host.todo != {} && !Holding(s) {
      var c :| c in s.host.todo && t.host == Scan(s.host.snap, s.host.polls, s.host.last, s.host.todo - {c},
                 if c in s.table && s.table[c].phase == Published then s.host.count + 1 else s.host.count);
      assert c in s.table && s.table[c].phase == Published;
    }
  }

  lemma {:induction false} CountIsWitnessed(run: seq<State>, i: nat)
    requires IsRun(run) && i < |run| && Holding(run[i])
    ensures UnansweredBefore(run, i, run[i].cur.gen)
  {
    assert i > 0;
    ScanVisitsItsCalls(run, i - 1);
    CountComesFrom(run[i - 1], run[i]);
    if Holding(run[i - 1]) {
      CountIsWitnessed(run, i - 1);
      var j: nat :| j <= i - 1 && j < |run| && UnansweredAt(run[j], run[i - 1].cur.gen);
      assert UnansweredAt(run[j], run[i].cur.gen);
    }
  }

  /** A promotion reports stragglers only for calls that stood unanswered at the last look of
      its join, never while looks were left. */
  lemma StragglersAreReal(run: seq<State>, i: nat)
    requires IsRun(run) && i < |run| && run[i].host.Done? && run[i].host.outcome.Promoted?
    requires run[i].host.outcome.stragglers > 0
    ensures UnansweredBefore(run, i, run[i].cur.gen)
  {
    CountIsWitnessed(run, i);
  }

  // ---------------------------------------------------------------- what is taken over

  /** Whatever a predecessor sends, the host takes over only a sealed snapshot of the size it
      declares, within the bound; whatever a host offers, a successor applies only such a one. */
  lemma OnlySoundSnapshotsAreTaken(s: State, t: State, i: Instance, j: Instance)
    ensures HostStep(s, t) && s.host == SnapshotWait && t.host.SnapshotAck? ==>
      var p := t.host.snap;
      |s.cur.outbox| > 0 && s.cur.outbox[0] == SaveState(p) && p.sealed && p.declared == |p.content| <= MAX_SNAPSHOT
    ensures InstanceStep(i, j) && i.pc.ApplyRestore? && j.pc == SendRestoreAck(true) ==>
      var p := i.pc.offered;
      p.sealed && p.declared == |p.content| <= MAX_SNAPSHOT
  {
  }

  // ---------------------------------------------------------------- callers

  function With(s: State, c: CallId, me: Caller): State {
    s.(callers := s.callers[c := me])
  }

  lemma CallerReachesTheTable(s: State, c: CallId) returns (a: State, b: State, p: State)
    requires c in s.callers && s.callers[c].pc == Inside && s.routed.Some? && c !in s.table
    ensures CallerMove(s, a, c) && CallerMove(a, b, c) && CallerMove(b, p, c)
    ensures var g := s.routed.value;
      p == With(s, c, s.callers[c].(pc := Sending(g))).(table := s.table[c := Entry(g, Published, s.callers[c].stream)])
  {
    var me, g := s.callers[c], s.routed.value;
    a := With(s, c, me.(pc := Routed(g)));
    b := With(a, c, me.(pc := Registered(g))).(table := a.table[c := Entry(g, Submitted, me.stream)]);
    p := With(b, c, me.(pc := Sending(g))).(table := b.table[c := Entry(g, Published, me.stream)]);
    assert p.table == s.table[c := Entry(g, Published, me.stream)];
    assert p.callers == s.callers[c := me.(pc := Sending(g))];
  }

  lemma CallerLeaves(p: State, c: CallId) returns (l: State, o: State)
    requires c in p.callers && p.callers[c].pc.Sending?
    ensures CallerMove(p, l, c) && CallerMove(l, o, c) && o.table == p.table && o.gate == Left(p.gate)
    ensures c in o.callers && o.callers[c] == p.callers[c].(pc := Outside, leaves := p.callers[c].leaves + 1)
  {
    var me := p.callers[c];
    l := With(p, c, me.(pc := Leaving));
    o := With(l, c, me.(pc := Outside, leaves := me.leaves + 1)).(gate := Left(l.gate));
  }

  /** A caller admitted while routing stands publishes on the routed generation by its own
      steps alone, and leaves the barrier. */
  lemma AdmittedCallerPublishes(s: State, c: CallId) returns (chain: seq<State>)
    requires Inv(s) && c in s.callers && s.callers[c].pc == Inside && s.routed.Some?
    ensures |chain| == 6 && chain[0] == s && forall k :: 0 <= k < 5 ==> CallerMove(chain[k], chain[k + 1], c)
    ensures c in chain[3].table && chain[3].table[c] == Entry(s.routed.value, Published, s.callers[c].stream)
    ensures c in chain[5].callers && chain[5].callers[c].pc == Outside && chain[5].callers[c].leaves == 1
    ensures chain[5].gate == Left(s.gate) && chain[5].table == chain[3].table
  {
    assert CallInv(c, s.callers, s.table);
    var a, b, p := CallerReachesTheTable(s, c);
    var l, o := CallerLeaves(p, c);
    chain := [s, a, b, p, l, o];
  }
}

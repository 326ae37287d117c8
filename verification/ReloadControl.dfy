/**
  What every step of the reload keeps about the control plane: where the Drain, Resume
  and ack messages can be, which instances can be frozen, when admission is open, and
  what the snapshot on its way to the successor contains.
*/
module ReloadControl {
  import opened Common
  import opened Admission
  import opened ReloadModel

  predicate OnlyHeartbeats(q: seq<Message>) {
    forall i :: 0 <= i < |q| ==> q[i] == Heartbeat
  }

  /** Not part of any reload: nothing asked it to freeze and nothing is owed. */
  predicate Quiet(i: Instance) {
    && (i.pc == Serving || i.pc == Exited)
    && AllRunning(i) && i.inbox == [] && OnlyHeartbeats(i.outbox)
  }

  predicate BeforeResume(pc: PluginPc) {
    pc.Freezing? || pc.AwaitDrained? || pc.SendDrainAck? || pc.SavingState? || pc.SendSaveState?
    || pc.AwaitSaveOutcome? || pc.AwaitResume?
  }

  /** Drain was sent and no Resume was. */
  predicate Draining(i: Instance) {
    && ResumeAck !in i.outbox && Resume !in i.inbox
    && (i.pc == Serving || i.pc == Exited || BeforeResume(i.pc))
    && (i.pc == Serving ==> i.inbox == [Drain] && OnlyHeartbeats(i.outbox))
    && (BeforeResume(i.pc) ==> i.inbox == [] || i.inbox == [SaveStateAck])
  }

  /** Everything behind a ResumeAck is a heartbeat. */
  predicate AckThenHeartbeats(q: seq<Message>) {
    forall i, j :: 0 <= i < j < |q| && q[i] == ResumeAck ==> q[j] == Heartbeat
  }

  /** Exactly one Resume was sent after the Drain. */
  predicate Resumed(i: Instance) {
    && AckThenHeartbeats(i.outbox)
    && (i.pc == Serving || i.pc == Exited || BeforeResume(i.pc) || i.pc.Resuming? || i.pc == SendResumeAck)
    && (i.pc == Serving && ResumeAck !in i.outbox ==> i.inbox == [Drain, Resume] && OnlyHeartbeats(i.outbox))
    && (BeforeResume(i.pc) ==> i.inbox == [Resume] || i.inbox == [SaveStateAck, Resume])
    && (i.pc.Resuming? || i.pc == SendResumeAck ==> i.inbox == [])
    && (i.pc.Resuming? ==> forall k :: 0 <= k < i.pc.next && k < |i.running| ==> i.running[k])
    && (i.pc == SendResumeAck ==> AllRunning(i))
    && (ResumeAck in i.outbox ==> (i.pc == Serving || i.pc == Exited) && AllRunning(i) && i.inbox == [])
  }

  /** The successor's side of the restore: what it acks is what the host sent. */
  predicate Accepted(u: Instance, p: Snapshot) {
    Verified(p) && if u.restorer then u.restored == Some((p.version, p.content)) else p.content == []
  }

  predicate Restoring(u: Instance, p: Snapshot) {
    && AllRunning(u)
    && (u.pc == AwaitRestore || u.pc.ApplyRestore? || u.pc.SendRestoreAck? || u.pc == Serving || u.pc == Exited)
    && (u.pc == AwaitRestore ==> (u.inbox == [] || u.inbox == [Restore(p)]) && u.outbox == [])
    && (u.pc.ApplyRestore? ==> u.pc.offered == p && u.inbox == [] && u.outbox == [])
    && (u.pc.SendRestoreAck? ==> u.inbox == [] && u.outbox == [] && (u.pc.ready ==> Accepted(u, p)))
    && (u.outbox != [] ==> (u.pc == Serving || u.pc == Exited) && u.inbox == [] && OnlyHeartbeats(u.outbox[1..])
                           && u.outbox[0].RestoreAck? && (u.outbox[0].ready ==> Accepted(u, p)))
    && (u.pc == Serving ==> u.inbox == [] && u.outbox != [])
  }

  /** What the predecessor produced: every snapshot it sends is sealed and is its saved state. */
  predicate Sealed(i: Instance, p: Snapshot) {
    Verified(p) && i.saved == Some(p.content) && p.version == FORMAT_VERSION
  }

  predicate StateSent(pc: PluginPc) {
    pc == AwaitSaveOutcome || pc == AwaitResume || pc == Exited
  }

  predicate NoSaveState(q: seq<Message>) {
    forall k :: 0 <= k < |q| ==> !q[k].SaveState?
  }

  predicate SnapshotsSealed(i: Instance) {
    && (i.pc.SendSaveState? ==> Sealed(i, i.pc.built))
    && (i.pc.Freezing? || i.pc.AwaitDrained? || i.pc.SendDrainAck? || i.pc.SavingState? || i.pc.SendSaveState?
        ==> NoSaveState(i.outbox))
    && (forall k :: 0 <= k < |i.outbox| && i.outbox[k].SaveState? ==> Sealed(i, i.outbox[k].snap))
  }

  /** The predecessor once its verified state is in the host's hands. */
  predicate Delivered(i: Instance, p: Snapshot) {
    Sealed(i, p) && StateSent(i.pc) && Resume !in i.inbox
  }

  predicate CurrentInv(host: HostPc, cur: Instance) {
    match host
    case Idle | CloseWait(_) | CutoffDone | DrainSend | CutoffAbort | ReopenOld | WireOpen => Quiet(cur)
    case DrainWait | SnapshotWait => Draining(cur) && SnapshotsSealed(cur) && SaveStateAck !in cur.inbox
    case SnapshotAck(snap) =>
      Draining(cur) && SnapshotsSealed(cur) && SaveStateAck !in cur.inbox && Delivered(cur, snap)
    case Spawn(snap) => Draining(cur) && SnapshotsSealed(cur) && Delivered(cur, snap)
    case RestoreSend(snap) => Draining(cur) && SnapshotsSealed(cur) && Delivered(cur, snap)
    case RestoreWait(snap) => Draining(cur) && SnapshotsSealed(cur) && Delivered(cur, snap)
    case Promote(snap) => Draining(cur) && SnapshotsSealed(cur) && Delivered(cur, snap)
    case TeardownSuccessor | ResumeSend => Draining(cur) && SnapshotsSealed(cur)
    case ResumeWait => Resumed(cur) && SnapshotsSealed(cur)
    case PromoteOpen(snap) => Delivered(cur, snap)
    case RunOpen(snap) => Delivered(cur, snap)
    case Join(snap, _) => Delivered(cur, snap)
    case Scan(snap, _, _, _, _) => Delivered(cur, snap)
    case StopAdmission(snap, _) => Delivered(cur, snap)
    case FailInFlight(snap, _, _) => Delivered(cur, snap)
    case Reap(snap, _) => Delivered(cur, snap)
    case Done(outcome, snap) => (
      match outcome
      case Promoted(_) => Delivered(cur, snap)
      case RolledBack => Quiet(cur)
      case CrashEquivalent => true)
    case Detach | DetachWait(_) | CrashFail(_) | Wire => true
  }

  predicate Ready(succ: Option<Instance>, p: Snapshot) {
    succ.Some? && Quiet(succ.value) && Accepted(succ.value, p)
  }

  predicate Gone(succ: Option<Instance>) {
    succ.Some? ==> succ.value.pc == Exited
  }

  /** The successor as the host's program counter knows it. */
  predicate SuccessorInv(host: HostPc, succ: Option<Instance>) {
    match host
    case RestoreSend(snap) =>
      && succ.Some? && (succ.value.pc == AwaitRestore || succ.value.pc == Exited)
      && AllRunning(succ.value) && succ.value.inbox == [] && succ.value.outbox == []
    case RestoreWait(snap) => succ.Some? && Restoring(succ.value, snap)
    case TeardownSuccessor => true
    case ResumeSend | ResumeWait | ReopenOld => Gone(succ)
    case Promote(snap) => Ready(succ, snap)
    case PromoteOpen(snap) => Ready(succ, snap)
    case RunOpen(snap) => Ready(succ, snap)
    case Join(snap, _) => Ready(succ, snap)
    case Scan(snap, _, _, _, _) => Ready(succ, snap)
    case StopAdmission(snap, _) => Ready(succ, snap)
    case FailInFlight(snap, _, _) => Ready(succ, snap)
    case Reap(snap, _) => Ready(succ, snap)
    case Done(outcome, snap) => if outcome.Promoted? then Ready(succ, snap) else Gone(succ)
    case _ => succ.None?
  }

  predicate Committed(h: HostPc) {
    h.PromoteOpen? || h.RunOpen? || h.Join? || h.Scan? || h.StopAdmission? || h.FailInFlight? || h.Reap?
    || (h.Done? && h.outcome.Promoted?)
  }

  predicate RoutingInv(host: HostPc, gen: nat, open: bool, routed: Option<nat>) {
    match host
    case Idle => open && routed == Some(gen)
    case PromoteOpen(_) => !open && routed == Some(gen + 1)
    case RunOpen(_) | Join(_, _) | Scan(_, _, _, _, _) | StopAdmission(_, _) | FailInFlight(_, _, _) | Reap(_, _) =>
      open && routed == Some(gen + 1)
    case Done(outcome, _) => (
      match outcome
      case Promoted(_) => open && routed == Some(gen + 1)
      case RolledBack => open && routed == Some(gen)
      case CrashEquivalent => !open)
    case Detach | DetachWait(_) | CrashFail(_) | Wire => !open
    case _ => !open && routed == Some(gen)
  }

  predicate ControlInv(s: State) {
    && CurrentInv(s.host, s.cur)
    && SuccessorInv(s.host, s.succ)
    && (s.succ.Some? ==> s.succ.value.gen == s.cur.gen + 1)
    && RoutingInv(s.host, s.cur.gen, s.gate.open, s.routed)
  }

  // ---------------------------------------------------------------- preservation

  lemma QuietStep(i: Instance, j: Instance)
    requires Quiet(i) && InstanceStep(i, j)
    ensures Quiet(j) && j.gen == i.gen && j.restored == i.restored && j.restorer == i.restorer && j.saved == i.saved
  {
  }

  lemma DrainingStep(i: Instance, j: Instance)
    requires Draining(i) && SnapshotsSealed(i) && InstanceStep(i, j)
    ensures Draining(j) && SnapshotsSealed(j) && j.gen == i.gen
    ensures SaveStateAck !in i.inbox ==> SaveStateAck !in j.inbox
  {
    if i.pc.SavingState? || i.pc.SendSaveState? {
      SavingKeepsDraining(i, j);
    } else if i.pc.AwaitSaveOutcome? || i.pc.AwaitResume? {
      AwaitingKeepsDraining(i, j);
    } else if i.pc == Serving || i.pc == Exited {
      ServingKeepsDraining(i, j);
    } else {
      FreezingKeepsDraining(i, j);
    }
  }

  lemma FreezingKeepsDraining(i: Instance, j: Instance)
    requires Draining(i) && SnapshotsSealed(i) && InstanceStep(i, j)
    requires i.pc.Freezing? || i.pc.AwaitDrained? || i.pc.SendDrainAck?
    ensures Draining(j) && SnapshotsSealed(j) && j.gen == i.gen && j.inbox == i.inbox
  {
    if i.pc.SendDrainAck? {
      AckKeepsDraining(i, j);
    }
  }

  lemma AckKeepsDraining(i: Instance, j: Instance)
    requires Draining(i) && SnapshotsSealed(i) && InstanceStep(i, j) && i.pc.SendDrainAck?
    ensures Draining(j) && SnapshotsSealed(j) && j.gen == i.gen && j.inbox == i.inbox
  {
  }

  lemma ServingKeepsDraining(i: Instance, j: Instance)
    requires Draining(i) && SnapshotsSealed(i) && InstanceStep(i, j) && (i.pc == Serving || i.pc == Exited)
    ensures Draining(j) && SnapshotsSealed(j) && j.gen == i.gen
    ensures SaveStateAck !in i.inbox ==> SaveStateAck !in j.inbox
  {
  }

  lemma SavingKeepsDraining(i: Instance, j: Instance)
    requires Draining(i) && SnapshotsSealed(i) && InstanceStep(i, j) && (i.pc.SavingState? || i.pc.SendSaveState?)
    ensures Draining(j) && SnapshotsSealed(j) && j.gen == i.gen && j.inbox == i.inbox
  {
  }

  lemma AwaitingKeepsDraining(i: Instance, j: Instance)
    requires Draining(i) && SnapshotsSealed(i) && InstanceStep(i, j) && (i.pc.AwaitSaveOutcome? || i.pc.AwaitResume?)
    ensures Draining(j) && SnapshotsSealed(j) && j.gen == i.gen
    ensures SaveStateAck !in i.inbox ==> SaveStateAck !in j.inbox
  {
  }

  lemma StateSentStep(i: Instance, j: Instance)
    requires StateSent(i.pc) && Resume !in i.inbox && InstanceStep(i, j)
    ensures StateSent(j.pc) && Resume !in j.inbox && j.saved == i.saved && j.gen == i.gen
  {
  }

  lemma ResumingStep(i: Instance, j: Instance)
    requires Resumed(i) && SnapshotsSealed(i) && (i.pc.Resuming? || i.pc == SendResumeAck) && InstanceStep(i, j)
    ensures Resumed(j) && SnapshotsSealed(j)
  {
  }

  lemma UnresumedStep(i: Instance, j: Instance)
    requires Resumed(i) && SnapshotsSealed(i) && BeforeResume(i.pc) && InstanceStep(i, j)
    ensures Resumed(j) && SnapshotsSealed(j)
  {
    if i.pc.SavingState? || i.pc.SendSaveState? {
      SavingStep(i, j);
    } else if i.pc.AwaitSaveOutcome? || i.pc.AwaitResume? {
      AwaitingStep(i, j);
    } else {
      FreezingStep(i, j);
    }
  }

  lemma FreezingStep(i: Instance, j: Instance)
    requires Resumed(i) && SnapshotsSealed(i) && (i.pc.Freezing? || i.pc.AwaitDrained? || i.pc.SendDrainAck?)
    requires InstanceStep(i, j)
    ensures Resumed(j) && SnapshotsSealed(j)
  {
  }

  lemma SavingStep(i: Instance, j: Instance)
    requires Resumed(i) && SnapshotsSealed(i) && (i.pc.SavingState? || i.pc.SendSaveState?) && InstanceStep(i, j)
    ensures Resumed(j) && SnapshotsSealed(j)
  {
  }

  lemma AwaitingStep(i: Instance, j: Instance)
    requires Resumed(i) && SnapshotsSealed(i) && (i.pc.AwaitSaveOutcome? || i.pc.AwaitResume?) && InstanceStep(i, j)
    ensures Resumed(j) && SnapshotsSealed(j)
  {
  }

  lemma ResumedStep(i: Instance, j: Instance)
    requires Resumed(i) && SnapshotsSealed(i) && InstanceStep(i, j)
    ensures Resumed(j) && SnapshotsSealed(j)
  {
    if i.pc.Resuming? || i.pc == SendResumeAck {
      ResumingStep(i, j);
    } else if BeforeResume(i.pc) {
      UnresumedStep(i, j);
    } else {
      ServingStep(i, j);
    }
  }

  lemma ServingStep(i: Instance, j: Instance)
    requires Resumed(i) && SnapshotsSealed(i) && (i.pc == Serving || i.pc == Exited) && InstanceStep(i, j)
    ensures Resumed(j) && SnapshotsSealed(j)
  {
  }

  lemma RestoringStep(u: Instance, v: Instance, p: Snapshot)
    requires Restoring(u, p) && InstanceStep(u, v)
    ensures Restoring(v, p)
  {
  }

  lemma StepKeepsGeneration(i: Instance, j: Instance)
    requires InstanceStep(i, j)
    ensures j.gen == i.gen
  {
  }

  /** The running instance moves. */
  lemma CurKeepsControl(s: State, t: State)
    requires ControlInv(s) && CurStep(s, t)
    ensures ControlInv(t)
  {
    var j: Instance :| InstanceStep(s.cur, j) && t == s.(cur := j);
    StepKeepsGeneration(s.cur, j);
    StepKeepsCurrent(s.host, s.cur, j);
  }

  lemma StepKeepsCurrent(host: HostPc, i: Instance, j: Instance)
    requires CurrentInv(host, i) && InstanceStep(i, j)
    ensures CurrentInv(host, j)
  {
    if Quiet(i) {
      QuietStep(i, j);
    }
    if Draining(i) && SnapshotsSealed(i) {
      DrainingStep(i, j);
    }
    if host == ResumeWait {
      ResumedStep(i, j);
    }
    if StateSent(i.pc) && Resume !in i.inbox {
      StateSentStep(i, j);
    }
  }

  lemma SuccKeepsControl(s: State, t: State)
    requires ControlInv(s) && SuccStep(s, t)
    ensures ControlInv(t)
  {
    var j: Instance :| InstanceStep(s.succ.value, j) && t == s.(succ := Some(j));
    StepKeepsGeneration(s.succ.value, j);
    if Quiet(s.succ.value) {
      QuietStep(s.succ.value, j);
    }
    if s.host.RestoreWait? {
      RestoringStep(s.succ.value, j, s.host.snap);
    }
  }

  lemma CallsLeaveControlAlone(s: State, t: State)
    requires CallStep(s, t)
    ensures t.host == s.host && t.cur == s.cur && t.succ == s.succ && t.routed == s.routed && t.past == s.past
    ensures t.gate.open == s.gate.open && t.reaped == s.reaped
  {
  }

  lemma CallsKeepControl(s: State, t: State)
    requires ControlInv(s) && CallStep(s, t)
    ensures ControlInv(t)
  {
    CallsLeaveControlAlone(s, t);
  }

  lemma CutoffKeepsControl(s: State, t: State)
    requires ControlInv(s) && CutoffStep(s, t)
    ensures ControlInv(t)
  {
  }

  lemma DrainKeepsControl(s: State, t: State)
    requires ControlInv(s) && DrainStep(s, t)
    ensures ControlInv(t)
  {
    if s.host == DrainSend {
      DrainSendKeepsControl(s, t);
    } else {
      DrainWaitKeepsControl(s, t);
    }
  }

  lemma DrainSendKeepsControl(s: State, t: State)
    requires ControlInv(s) && s.host == DrainSend && DrainStep(s, t)
    ensures ControlInv(t)
  {
  }

  lemma DrainWaitKeepsControl(s: State, t: State)
    requires ControlInv(s) && s.host == DrainWait && DrainStep(s, t)
    ensures ControlInv(t)
  {
  }

  lemma SnapshotKeepsControl(s: State, t: State)
    requires ControlInv(s) && SnapshotStep(s, t)
    ensures ControlInv(t)
  {
  }

  lemma PromoteKeepsControl(s: State, t: State)
    requires ControlInv(s) && PromoteStep(s, t)
    ensures ControlInv(t)
  {
    if s.host.Spawn? || s.host.RestoreSend? {
      SpawnKeepsControl(s, t);
    } else if s.host.RestoreWait? {
      RestoreAckKeepsControl(s, t);
    } else {
      SwapKeepsControl(s, t);
    }
  }

  lemma SpawnKeepsControl(s: State, t: State)
    requires ControlInv(s) && PromoteStep(s, t) && (s.host.Spawn? || s.host.RestoreSend?)
    ensures ControlInv(t)
  {
  }

  lemma RestoreAckKeepsControl(s: State, t: State)
    requires ControlInv(s) && PromoteStep(s, t) && s.host.RestoreWait?
    ensures ControlInv(t)
  {
  }

  lemma SwapKeepsControl(s: State, t: State)
    requires ControlInv(s) && PromoteStep(s, t) && (s.host.Promote? || s.host.PromoteOpen?)
    ensures ControlInv(t)
  {
  }

  lemma JoinKeepsControl(s: State, t: State)
    requires ControlInv(s) && JoinStep(s, t)
    ensures ControlInv(t)
  {
  }

  lemma RetireKeepsControl(s: State, t: State)
    requires ControlInv(s) && RetireStep(s, t)
    ensures ControlInv(t)
  {
  }

  lemma ResumeAckKeepsControl(s: State, t: State)
    requires ControlInv(s) && s.host == ResumeWait && RollbackStep(s, t)
    ensures ControlInv(t)
  {
  }

  lemma RollbackKeepsControl(s: State, t: State)
    requires ControlInv(s) && RollbackStep(s, t)
    ensures ControlInv(t)
  {
    if s.host == ResumeWait {
      ResumeAckKeepsControl(s, t);
    } else if s.host == ResumeSend {
      ResumeKeepsControl(s, t);
    } else {
      ReopenKeepsControl(s, t);
    }
  }

  lemma ResumeKeepsControl(s: State, t: State)
    requires ControlInv(s) && s.host == ResumeSend && RollbackStep(s, t)
    ensures ControlInv(t)
  {
    assert t.host == ResumeWait ==> Resumed(t.cur);
  }

  lemma ReopenKeepsControl(s: State, t: State)
    requires ControlInv(s) && (s.host == TeardownSuccessor || s.host == ReopenOld) && RollbackStep(s, t)
    ensures ControlInv(t)
  {
  }

  lemma SupervisorKeepsControl(s: State, t: State)
    requires ControlInv(s) && SupervisorStep(s, t)
    ensures ControlInv(t)
  {
  }

  lemma RestartKeepsControl(s: State, t: State)
    requires ControlInv(s) && RestartStep(s, t)
    ensures ControlInv(t)
  {
  }
}

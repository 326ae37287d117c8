/**
  When a rollback can complete. From the moment the host decides to roll back it only reads
  what the predecessor puts on the control channel, in order, and takes nothing but
  ResumeAck; so whether admission can reopen is decided by what the predecessor has already
  sent or is already bound to send.
*/
module ReloadRollback {
  import opened Common
  import opened Admission
  import opened ReloadModel
  import opened ReloadControl
  import opened ReloadBarrier
  import opened ReloadTheorems

  predicate Rolling(h: HostPc) {
    h == TeardownSuccessor || h == ResumeSend || h == ResumeWait
  }

  /** ResumeAck can still be the next message: it is, or nothing is queued, the predecessor
      is not about to send another answer, and no acknowledgement it will reject is waiting
      for it. */
  predicate Answerable(i: Instance) {
    if i.outbox != [] then i.outbox[0] == ResumeAck
    else
      && !i.pc.SendDrainAck? && !i.pc.SendSaveState? && !i.pc.Exited?
      && (SaveStateAck in i.inbox ==> i.pc.AwaitSaveOutcome?)
  }

  ghost predicate Link(chain: seq<State>, k: nat)
    requires k + 1 < |chain|
  {
    Next(chain[k], chain[k + 1]) && InTransaction(chain[k].host)
  }

  /** What may happen after s up to the return of its transaction, whoever moves. */
  ghost predicate Continuation(s: State, chain: seq<State>) {
    && |chain| > 0 && chain[0] == s
    && (forall k :: 0 <= k < |chain| - 1 ==> Link(chain, k))
  }

  ghost predicate CompletesIn(s: State, chain: seq<State>) {
    Continuation(s, chain) && chain[|chain| - 1].host == Done(RolledBack, NO_SNAPSHOT)
  }

  ghost predicate RollbackCanComplete(s: State) {
    exists chain :: CompletesIn(s, chain)
  }

  // ---------------------------------------------------------------- once unanswerable

  lemma InstanceStaysUnanswerable(i: Instance, j: Instance)
    requires Draining(i) || Resumed(i)
    requires !Answerable(i) && InstanceStep(i, j)
    ensures !Answerable(j)
  {
    OutboxOnlyGrows(i, j);
    if i.outbox == [] {
      if i.pc.SendDrainAck? || i.pc.SendSaveState? || i.pc.Exited? {
        BoundToAnswer(i, j);
      } else {
        AckIsRejected(i, j);
      }
    }
  }

  lemma OutboxOnlyGrows(i: Instance, j: Instance)
    requires InstanceStep(i, j)
    ensures i.outbox <= j.outbox
  {
  }

  lemma BoundToAnswer(i: Instance, j: Instance)
    requires i.outbox == [] && (i.pc.SendDrainAck? || i.pc.SendSaveState? || i.pc.Exited?) && InstanceStep(i, j)
    ensures !Answerable(j)
  {
  }

  lemma AckIsRejected(i: Instance, j: Instance)
    requires (Draining(i) || Resumed(i)) && i.outbox == [] && InstanceStep(i, j)
    requires !i.pc.SendDrainAck? && !i.pc.SendSaveState? && !i.pc.Exited?
    requires SaveStateAck in i.inbox && !i.pc.AwaitSaveOutcome?
    ensures !Answerable(j)
  {
  }

  predicate Doomed(s: State) {
    (Rolling(s.host) && !Answerable(s.cur)) || s.host == Done(CrashEquivalent, NO_SNAPSHOT)
  }

  lemma HostStaysDoomed(s: State, t: State)
    requires Rolling(s.host) && !Answerable(s.cur) && HostStep(s, t)
    ensures Doomed(t)
  {
    assert RollbackStep(s, t);
  }

  lemma StaysDoomed(s: State, t: State)
    requires Inv(s) && Rolling(s.host) && !Answerable(s.cur) && Next(s, t)
    ensures Doomed(t)
  {
    if HostStep(s, t) {
      HostStaysDoomed(s, t);
    } else {
      OthersLeaveRunWhereItIs(s, t);
      if CurStep(s, t) {
        var j: Instance :| InstanceStep(s.cur, j) && t == s.(cur := j);
        InstanceStaysUnanswerable(s.cur, j);
      } else if CallStep(s, t) {
        CallsLeaveControlAlone(s, t);
      }
    }
  }

  lemma DoomedStep(s: State, t: State)
    requires Inv(s) && Doomed(s) && Next(s, t) && InTransaction(s.host)
    ensures Inv(t) && Doomed(t)
  {
    NextKeepsInv(s, t);
    StaysDoomed(s, t);
  }

  ghost predicate Carried(chain: seq<State>, good: iset<State>, k: nat)
    requires k + 1 < |chain|
  {
    chain[k] in good ==> chain[k + 1] in good
  }

  lemma {:induction false} CarriedAlong(chain: seq<State>, good: iset<State>, k: nat)
    requires k < |chain| && chain[0] in good && forall i: nat :: i < |chain| - 1 ==> Carried(chain, good, i)
    ensures chain[k] in good
  {
    if k > 0 {
      CarriedAlong(chain, good, k - 1);
      assert Carried(chain, good, k - 1);
    }
  }

  /** Nothing that happens afterwards rescues the rollback: the transaction can only return
      crash-equivalent. */
  lemma UnanswerableStaysSo(s: State, chain: seq<State>, k: nat)
    requires Inv(s) && Rolling(s.host) && !Answerable(s.cur) && Continuation(s, chain) && k < |chain|
    ensures Inv(chain[k]) && Doomed(chain[k])
  {
    var good := iset t: State | Inv(t) && Doomed(t);
    forall i: nat | i < |chain| - 1
      ensures Carried(chain, good, i)
    {
      assert Link(chain, i);
      if chain[i] in good {
        DoomedStep(chain[i], chain[i + 1]);
      }
    }
    CarriedAlong(chain, good, k);
  }

  // ---------------------------------------------------------------- while answerable

  /** How far the predecessor is from sending ResumeAck. */
  function Distance(i: Instance): (nat, nat) {
    match i.pc
    case Serving => (7, 0)
    case Freezing(n) => (6, if n < |i.running| then |i.running| - n else 0)
    case AwaitDrained => (5, 0)
    case SavingState => (5, 0)
    case AwaitSaveOutcome => (5, 0)
    case AwaitResume => (4, 0)
    case Resuming(n) => (3, if n < |i.running| then |i.running| - n else 0)
    case _ => (2, 0)
  }

  predicate Nearer(j: Instance, i: Instance) {
    Distance(j).0 < Distance(i).0 || (Distance(j).0 == Distance(i).0 && Distance(j).1 < Distance(i).1)
  }

  /** The predecessor's own next step towards its ResumeAck. */
  lemma AnswerStep(i: Instance) returns (j: Instance)
    requires Resumed(i) && i.outbox == [] && Answerable(i)
    ensures InstanceStep(i, j)
    ensures j.outbox == [ResumeAck] || (j.outbox == [] && Answerable(j) && Nearer(j, i))
  {
    if i.pc.Resuming? || i.pc.SendResumeAck? {
      j := ResumingAnswers(i);
    } else if i.pc.AwaitSaveOutcome? || i.pc.AwaitResume? {
      j := AwaitingAnswers(i);
    } else {
      j := DrainingAnswers(i);
    }
  }

  lemma DrainingAnswers(i: Instance) returns (j: Instance)
    requires Resumed(i) && i.outbox == [] && Answerable(i)
    requires i.pc.Serving? || i.pc.Freezing? || i.pc.AwaitDrained? || i.pc.SavingState?
    ensures InstanceStep(i, j) && j.outbox == [] && Answerable(j) && Nearer(j, i)
  {
    match i.pc
    case Serving =>
      j := i.(pc := Freezing(0), inbox := i.inbox[1..]);
      assert ServeStep(i, j);
    case Freezing(n) =>
      j := if n < |i.running| then i.(pc := Freezing(n + 1), running := i.running[n := false])
           else i.(pc := AwaitDrained);
      assert FreezeStep(i, j);
    case AwaitDrained =>
      j := i.(pc := AwaitResume);
      assert DrainedStep(i, j);
    case SavingState =>
      j := i.(pc := AwaitResume);
      assert SaveStep(i, j);
  }

  lemma AwaitingAnswers(i: Instance) returns (j: Instance)
    requires Resumed(i) && i.outbox == [] && Answerable(i) && (i.pc.AwaitSaveOutcome? || i.pc.AwaitResume?)
    ensures InstanceStep(i, j) && j.outbox == [] && Answerable(j) && Nearer(j, i)
  {
    j := i.(pc := if i.inbox[0] == Resume then Resuming(0) else AwaitResume, inbox := i.inbox[1..]);
    assert AwaitStep(i, j);
  }

  lemma ResumingAnswers(i: Instance) returns (j: Instance)
    requires Resumed(i) && i.outbox == [] && Answerable(i) && (i.pc.Resuming? || i.pc.SendResumeAck?)
    ensures InstanceStep(i, j)
    ensures j.outbox == [ResumeAck] || (j.outbox == [] && Answerable(j) && Nearer(j, i))
  {
    match i.pc
    case Resuming(n) =>
      j := if n < |i.running| then i.(pc := Resuming(n + 1), running := i.running[n := true])
           else i.(pc := SendResumeAck);
      assert ResumeStep(i, j);
    case SendResumeAck =>
      j := i.(pc := Serving, outbox := i.outbox + [ResumeAck]);
      assert ResumeStep(i, j);
  }

  lemma Prepend(s: State, t: State, chain: seq<State>)
    requires Next(s, t) && InTransaction(s.host) && Continuation(t, chain)
    ensures Continuation(s, [s] + chain) && ([s] + chain)[|chain|] == chain[|chain| - 1]
  {
    var longer := [s] + chain;
    forall k | 0 <= k < |longer| - 1
      ensures Link(longer, k)
    {
      assert longer[k + 1] == chain[k];
      assert k > 0 ==> longer[k] == chain[k - 1] && Link(chain, k - 1);
    }
  }

  lemma AckCompletes(s: State) returns (chain: seq<State>)
    requires s.host == ResumeWait && Head(s.cur, ResumeAck)
    ensures CompletesIn(s, chain)
  {
    var t := s.(cur := Pop(s.cur), host := ReopenOld);
    var u := t.(gate := Opened(t.gate), host := Done(RolledBack, NO_SNAPSHOT));
    assert RollbackStep(s, t) && RollbackStep(t, u);
    chain := [s, t, u];
  }

  lemma {:induction false} WaitCompletes(s: State) returns (chain: seq<State>)
    requires Inv(s) && s.host == ResumeWait && Answerable(s.cur)
    ensures CompletesIn(s, chain)
    decreases if s.cur.outbox == [] then 1 else 0, Distance(s.cur).0, Distance(s.cur).1
  {
    if s.cur.outbox != [] {
      chain := AckCompletes(s);
    } else {
      var j := AnswerStep(s.cur);
      var t := s.(cur := j);
      assert CurStep(s, t);
      NextKeepsInv(s, t);
      chain := WaitCompletes(t);
      Prepend(s, t, chain);
      chain := [s] + chain;
    }
  }

  lemma SendCompletes(s: State) returns (chain: seq<State>)
    requires Inv(s) && s.host == ResumeSend && Answerable(s.cur)
    ensures CompletesIn(s, chain)
  {
    var t := s.(cur := Push(s.cur, Resume), host := ResumeWait);
    assert RollbackStep(s, t);
    NextKeepsInv(s, t);
    chain := WaitCompletes(t);
    Prepend(s, t, chain);
    chain := [s] + chain;
  }

  lemma TeardownCompletes(s: State) returns (chain: seq<State>)
    requires Inv(s) && s.host == TeardownSuccessor && Answerable(s.cur)
    ensures CompletesIn(s, chain)
  {
    var t := s.(succ := if s.succ.Some? then Some(s.succ.value.(pc := Exited)) else None, host := ResumeSend);
    assert RollbackStep(s, t);
    NextKeepsInv(s, t);
    chain := SendCompletes(t);
    Prepend(s, t, chain);
    chain := [s] + chain;
  }

  // ---------------------------------------------------------------- theorems

  lemma AnswerableCompletes(s: State)
    requires Inv(s) && Rolling(s.host) && Answerable(s.cur)
    ensures RollbackCanComplete(s)
  {
    var chain;
    if s.host == TeardownSuccessor {
      chain := TeardownCompletes(s);
    } else if s.host == ResumeSend {
      chain := SendCompletes(s);
    } else {
      chain := WaitCompletes(s);
    }
  }

  lemma UnanswerableNeverCompletes(s: State, chain: seq<State>)
    requires Inv(s) && Rolling(s.host) && !Answerable(s.cur)
    ensures !CompletesIn(s, chain)
  {
    if CompletesIn(s, chain) {
      UnanswerableStaysSo(s, chain, |chain| - 1);
    }
  }

  /** At every point of every rollback: it can still complete, and reopen admission to its
      predecessor, exactly when that predecessor is answerable. */
  lemma RollbackCompletesExactlyWhenAnswerable(run: seq<State>, i: nat)
    requires IsRun(run) && i < |run| && Rolling(run[i].host)
    ensures RollbackCanComplete(run[i]) <==> Answerable(run[i].cur)
  {
    Reachable(run, i);
    if Answerable(run[i].cur) {
      AnswerableCompletes(run[i]);
    } else {
      forall chain
        ensures !CompletesIn(run[i], chain)
      {
        UnanswerableNeverCompletes(run[i], chain);
      }
    }
  }

  /** And when it is not, every continuation that returns does so crash-equivalent, with
      admission closed. */
  lemma UnanswerableEndsCrashEquivalent(run: seq<State>, i: nat, chain: seq<State>)
    requires IsRun(run) && i < |run| && Rolling(run[i].host) && !Answerable(run[i].cur)
    requires Continuation(run[i], chain) && chain[|chain| - 1].host.Done?
    ensures chain[|chain| - 1].host == Done(CrashEquivalent, NO_SNAPSHOT) && !chain[|chain| - 1].gate.open
  {
    Reachable(run, i);
    UnanswerableStaysSo(run[i], chain, |chain| - 1);
  }

  /** The predecessor's snapshot comes after the host gave up waiting for it: it is queued,
      or about to be sent. */
  predicate LateSnapshot(s: State) {
    && Rolling(s.host)
    && if s.cur.outbox != [] then s.cur.outbox[0].SaveState? else s.cur.pc.SendSaveState?
  }

  /** A live predecessor whose saver was slow cannot be resumed. */
  lemma LateSnapshotEndsCrashEquivalent(run: seq<State>, i: nat, chain: seq<State>)
    requires IsRun(run) && i < |run| && LateSnapshot(run[i])
    requires Continuation(run[i], chain) && chain[|chain| - 1].host.Done?
    ensures chain[|chain| - 1].host == Done(CrashEquivalent, NO_SNAPSHOT) && !chain[|chain| - 1].gate.open
  {
    UnanswerableEndsCrashEquivalent(run, i, chain);
  }

  /** The host gives up on a snapshot the plugin is about to send, and rolls back. */
  function LateSnapshotRun(): seq<State> {
    var snap := Snapshot([], true, 0, FORMAT_VERSION);
    var c := Instance(0, Serving, [], false, [], [], None, None);
    var built := c.(pc := SendSaveState(snap), saved := Some([]));
    var sent := built.(pc := AwaitSaveOutcome, outbox := [SaveState(snap)]);
    var idle := State(Idle, c, None, Gate(true, 0, None, {}, 0), Some(0), {}, map[], map[], {});
    var cut := idle.(gate := Closing(idle.gate));
    [
      idle,
      cut.(host := CutoffDone),
      cut.(host := DrainSend),
      cut.(host := DrainWait, cur := c.(inbox := [Drain])),
      cut.(host := DrainWait, cur := c.(pc := Freezing(0))),
      cut.(host := DrainWait, cur := c.(pc := AwaitDrained)),
      cut.(host := DrainWait, cur := c.(pc := SendDrainAck)),
      cut.(host := DrainWait, cur := c.(pc := SavingState, outbox := [DrainAck])),
      cut.(host := SnapshotWait, cur := c.(pc := SavingState)),
      cut.(host := SnapshotWait, cur := built),
      cut.(host := TeardownSuccessor, cur := built),
      cut.(host := ResumeSend, cur := built),
      cut.(host := ResumeSend, cur := sent),
      cut.(host := ResumeWait, cur := sent.(inbox := [Resume])),
      cut.(host := Done(CrashEquivalent, NO_SNAPSHOT), cur := sent.(inbox := [Resume], outbox := []))
    ]
  }

  lemma LateSnapshotHostSteps(i: nat)
    requires i in {0, 1, 2, 7, 9, 10, 12, 13}
    ensures HostStep(LateSnapshotRun()[i], LateSnapshotRun()[i + 1])
  {
    var s, t := LateSnapshotRun()[i], LateSnapshotRun()[i + 1];
    if i < 2 {
      assert CutoffStep(s, t);
    } else if i == 2 || i == 7 {
      assert DrainStep(s, t);
    } else if i == 9 {
      assert SnapshotStep(s, t);
    } else {
      assert RollbackStep(s, t);
    }
  }

  lemma LateSnapshotPluginSteps(i: nat)
    requires i in {3, 4, 5, 6, 8, 11}
    ensures CurStep(LateSnapshotRun()[i], LateSnapshotRun()[i + 1])
  {
    var s, t := LateSnapshotRun()[i], LateSnapshotRun()[i + 1];
    if i == 3 {
      assert ServeStep(s.cur, t.cur);
    } else if i == 4 {
      assert FreezeStep(s.cur, t.cur);
    } else if i < 7 {
      assert DrainedStep(s.cur, t.cur);
    } else {
      assert SaveStep(s.cur, t.cur);
    }
    assert t == s.(cur := t.cur);
  }

  lemma LateSnapshotEnds()
    ensures Init(LateSnapshotRun()[0]) && LateSnapshot(LateSnapshotRun()[10])
    ensures LateSnapshotRun()[14].host == Done(CrashEquivalent, NO_SNAPSHOT)
    ensures LateSnapshotRun()[14].cur.pc == AwaitSaveOutcome
  {
  }

  lemma LateSnapshotSteps(i: nat)
    requires i < 14
    ensures Next(LateSnapshotRun()[i], LateSnapshotRun()[i + 1])
  {
    if i in {3, 4, 5, 6, 8, 11} {
      LateSnapshotPluginSteps(i);
    } else {
      LateSnapshotHostSteps(i);
    }
  }

  /** And it happens: the drain phase keeps a margin for its ack, the snapshot phase none. A
      run ends crash-equivalent with its predecessor alive and waiting for an answer. */
  lemma LateSnapshotHappens()
    ensures exists run: seq<State>, i: nat, n: nat ::
      && IsRun(run) && i < n < |run| && LateSnapshot(run[i])
      && run[n].host == Done(CrashEquivalent, NO_SNAPSHOT) && run[n].cur.pc == AwaitSaveOutcome
  {
    var run := LateSnapshotRun();
    LateSnapshotEnds();
    forall i | 0 <= i < |run| - 1
      ensures Next(run[i], run[i + 1])
    {
      LateSnapshotSteps(i);
    }
    assert IsRun(run);
  }
}

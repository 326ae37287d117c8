/**
  The hot-reload transaction as a step system. One step is one critical section, one
  atomic store, or the resolution of one blocking call (a send, a receive, a spawn, a
  user hook), so every interleaving of the host, the running instance, the successor
  and the callers is a run. Timeouts, failed sends, cancellation and crashes are steps
  that are always allowed to happen.
*/
module ReloadModel {
  import opened Common
  import opened Admission

  // ---------------------------------------------------------------- control messages

  const FORMAT_VERSION: nat := 1
  const MAX_SNAPSHOT: nat := 0x4000_0000

  /** A snapshot memfd with the header fields that travel beside it. */
  datatype Snapshot = Snapshot(content: seq<byte>, sealed: bool, declared: nat, version: nat)

  datatype Message =
    | Drain
    | DrainAck
    | SaveState(snap: Snapshot)
    | SaveStateAck
    | Resume
    | ResumeAck
    | Restore(snap: Snapshot)
    | RestoreAck(ready: bool)
    | Heartbeat

  /** shm.VerifySealedSnapshot, which both the host and the successor run. */
  predicate Verified(p: Snapshot) {
    p.sealed && p.declared == |p.content| && |p.content| <= MAX_SNAPSHOT
  }

  // ---------------------------------------------------------------- plugin instance

  datatype PluginPc =
    | AwaitRestore                        // a successor before ServeRestore's receive
    | ApplyRestore(offered: Snapshot)
    | SendRestoreAck(ready: bool)
    | Serving
    | Freezing(next: nat)                 // about to freeze mutator `next`
    | AwaitDrained
    | SendDrainAck
    | SavingState
    | SendSaveState(built: Snapshot)
    | AwaitSaveOutcome
    | AwaitResume
    | Resuming(next: nat)                 // about to resume mutator `next`
    | SendResumeAck
    | Exited                              // retired, failed or crashed

  /** `running[k]` says mutator k is running; `saved` is what the saver produced and
      `restored` what the restorer accepted. */
  datatype Instance = Instance(
    gen: nat,
    pc: PluginPc,
    running: seq<bool>,
    restorer: bool,
    inbox: seq<Message>,
    outbox: seq<Message>,
    saved: Option<seq<byte>>,
    restored: Option<(nat, seq<byte>)>)

  predicate AllRunning(i: Instance) {
    forall k :: 0 <= k < |i.running| ==> i.running[k]
  }

  predicate Fresh(i: Instance, gen: nat, pc: PluginPc) {
    i.gen == gen && i.pc == pc && AllRunning(i) && i.inbox == [] && i.outbox == []
    && i.saved.None? && i.restored.None?
  }

  /** A user hook on mutator k returned an error: its state is whatever the hook left. */
  predicate HookFailed(i: Instance, j: Instance, k: nat)
    requires k < |i.running|
  {
    j == i.(pc := Exited, running := i.running[k := true]) || j == i.(pc := Exited, running := i.running[k := false])
  }

  predicate ServeStep(i: Instance, j: Instance) {
    i.pc == Serving && (
      || (|i.inbox| > 0 && i.inbox[0] == Drain && j == i.(pc := Freezing(0), inbox := i.inbox[1..]))
      || (|i.inbox| > 0 && i.inbox[0] != Drain && j == i.(inbox := i.inbox[1..]))
      || j == i.(outbox := i.outbox + [Heartbeat]))
  }

  /** Freezing stops at the first failure; the failing mutator's state is arbitrary. */
  predicate FreezeStep(i: Instance, j: Instance) {
    i.pc.Freezing? && (
      || (i.pc.next < |i.running| && j == i.(pc := Freezing(i.pc.next + 1), running := i.running[i.pc.next := false]))
      || (i.pc.next < |i.running| && HookFailed(i, j, i.pc.next))
      || (i.pc.next >= |i.running| && j == i.(pc := AwaitDrained)))
  }

  predicate DrainedStep(i: Instance, j: Instance) {
    || (i.pc == AwaitDrained && (j == i.(pc := SendDrainAck) || j == i.(pc := AwaitResume)))
    || (i.pc == SendDrainAck && (j == i.(pc := SavingState, outbox := i.outbox + [DrainAck]) || j == i.(pc := Exited)))
  }

  /** runSnapshotPhase: a saver failure or an oversize payload never reaches the wire. */
  ghost predicate SaveStep(i: Instance, j: Instance) {
    || (i.pc == SavingState && j == i.(pc := AwaitResume))
    || (i.pc == SavingState && exists payload: seq<byte> ::
         && |payload| <= MAX_SNAPSHOT
         && j == i.(saved := Some(payload),
                    pc := SendSaveState(Snapshot(payload, true, |payload|, FORMAT_VERSION))))
    || (i.pc.SendSaveState? && (
         || j == i.(pc := AwaitSaveOutcome, outbox := i.outbox + [SaveState(i.pc.built)])
         || j == i.(pc := Exited)))
  }

  predicate AwaitStep(i: Instance, j: Instance) {
    (i.pc == AwaitSaveOutcome || i.pc == AwaitResume) && (
      || (|i.inbox| > 0 && i.pc == AwaitSaveOutcome && i.inbox[0] == SaveStateAck
          && j == i.(pc := AwaitResume, inbox := i.inbox[1..]))
      || (|i.inbox| > 0 && i.inbox[0] == Resume && j == i.(pc := Resuming(0), inbox := i.inbox[1..]))
      || (|i.inbox| > 0 && i.inbox[0] != Resume && !(i.pc == AwaitSaveOutcome && i.inbox[0] == SaveStateAck)
          && j == i.(pc := Exited, inbox := i.inbox[1..])))
  }

  predicate ResumeStep(i: Instance, j: Instance) {
    || (i.pc.Resuming? && (
         || (i.pc.next < |i.running| && j == i.(pc := Resuming(i.pc.next + 1), running := i.running[i.pc.next := true]))
         || (i.pc.next < |i.running| && HookFailed(i, j, i.pc.next))
         || (i.pc.next >= |i.running| && j == i.(pc := SendResumeAck))))
    || (i.pc == SendResumeAck && (
         || j == i.(pc := Serving, outbox := i.outbox + [ResumeAck])
         || j == i.(pc := Exited)))
  }

  /** verifyAndRestore: the payload the restorer sees is the sealed content itself. */
  predicate RestoreStep(i: Instance, j: Instance) {
    || (i.pc == AwaitRestore && |i.inbox| > 0 && (
         if i.inbox[0].Restore?
         then j == i.(pc := ApplyRestore(i.inbox[0].snap), inbox := i.inbox[1..])
         else j == i.(pc := Exited, inbox := i.inbox[1..])))
    || (i.pc.ApplyRestore? && j == i.(pc := SendRestoreAck(false)))
    || (i.pc.ApplyRestore? && Verified(i.pc.offered) && (
         if i.restorer
         then j == i.(pc := SendRestoreAck(true), restored := Some((i.pc.offered.version, i.pc.offered.content)))
         else i.pc.offered.content == [] && j == i.(pc := SendRestoreAck(true))))
    || (i.pc.SendRestoreAck? && (
         || j == i.(pc := Serving, outbox := i.outbox + [RestoreAck(i.pc.ready)])
         || j == i.(pc := Exited)))
  }

  ghost predicate InstanceStep(i: Instance, j: Instance) {
    || j == i.(pc := Exited)
    || ServeStep(i, j) || FreezeStep(i, j) || DrainedStep(i, j) || SaveStep(i, j)
    || AwaitStep(i, j) || ResumeStep(i, j) || RestoreStep(i, j)
  }

  // ---------------------------------------------------------------- callers and tables

  type CallId = nat

  datatype Phase = Submitted | Published | Terminal

  /** An entry of generation `gen`: unary calls live in the request table, streams in the
      stream table, and both draw from one space of call IDs. */
  datatype Entry = Entry(gen: nat, phase: Phase, stream: bool)

  datatype CallerPc =
    | Inside                       // Enter returned true
    | Routed(gen: nat)             // routing loaded inside the barrier
    | Registered(gen: nat)         // table entry submitted
    | Sending(gen: nat)            // publication CAS won, the frame not yet handed over
    | Enqueued(gen: nat)           // a stream open whose completion callback owns the Leave
    | Leaving                      // nothing left to publish, Leave still owed
    | Outside                      // left the barrier
    | Refused                      // Enter returned false

  datatype Caller = Caller(pc: CallerPc, stream: bool, enters: nat, leaves: nat)

  predicate InBarrier(c: Caller) {
    !c.pc.Outside? && !c.pc.Refused?
  }

  function Within(callers: map<CallId, Caller>): set<CallId> {
    set c | c in callers && InBarrier(callers[c])
  }

  // ---------------------------------------------------------------- host transaction

  datatype Outcome = Promoted(stragglers: nat) | RolledBack | CrashEquivalent

  datatype HostPc =
    | Idle
    | CloseWait(signal: nat)
    | CutoffDone
    | DrainSend
    | DrainWait
    | SnapshotWait
    | SnapshotAck(snap: Snapshot)
    | Spawn(snap: Snapshot)
    | RestoreSend(snap: Snapshot)
    | RestoreWait(snap: Snapshot)
    | Promote(snap: Snapshot)
    | PromoteOpen(snap: Snapshot)
    | RunOpen(snap: Snapshot)
    | Join(snap: Snapshot, polls: nat)
    | Scan(snap: Snapshot, polls: nat, last: bool, todo: set<CallId>, count: nat)
    | StopAdmission(snap: Snapshot, stragglers: nat)
    | FailInFlight(snap: Snapshot, stragglers: nat, todo: set<CallId>)
    | Reap(snap: Snapshot, stragglers: nat)
    | CutoffAbort
    | TeardownSuccessor
    | ResumeSend
    | ResumeWait
    | ReopenOld
    | Done(outcome: Outcome, snap: Snapshot)
    | Detach
    | DetachWait(signal: nat)
    | CrashFail(todo: set<CallId>)
    | Wire
    | WireOpen

  const NO_SNAPSHOT := Snapshot([], true, 0, FORMAT_VERSION)

  /** `routed` is the generation c.state points at; `past` the generations a promotion
      moved routing away from; `reaped` the calls the retirement of a predecessor ended
      as outcome-unknown. */
  datatype State = State(
    host: HostPc,
    cur: Instance,
    succ: Option<Instance>,
    gate: Gate,
    routed: Option<nat>,
    past: set<nat>,
    callers: map<CallId, Caller>,
    table: map<CallId, Entry>,
    reaped: set<CallId>)

  ghost predicate Init(s: State) {
    && s.host == Idle && Fresh(s.cur, s.cur.gen, Serving) && s.succ.None?
    && s.gate == Gate(true, 0, None, {}, 0)
    && s.routed == Some(s.cur.gen) && s.past == {}
    && s.callers == map[] && s.table == map[] && s.reaped == {}
  }

  function Push(i: Instance, m: Message): Instance {
    i.(inbox := i.inbox + [m])
  }

  function Pop(i: Instance): Instance
    requires |i.outbox| > 0
  {
    i.(outbox := i.outbox[1..])
  }

  predicate Head(i: Instance, m: Message) {
    |i.outbox| > 0 && i.outbox[0] == m
  }

  /** The unary calls of one generation: what PublishedCount and FailAll range over. */
  function CallsOf(s: State, gen: nat): set<CallId> {
    set c | c in s.table && s.table[c].gen == gen && !s.table[c].stream
  }

  /** Phase 1: AdmissionGate.Close, its bounded join, and the context check after it. */
  predicate CutoffStep(s: State, t: State) {
    match s.host
    case Idle =>
      t == s.(gate := Closing(s.gate),
              host := if s.gate.active == 0 then CutoffDone else CloseWait(s.gate.nextSignal))
    case CloseWait(signal) =>
      || (signal in s.gate.signalled && t == s.(host := CutoffDone))
      || t == s.(gate := CloseExpired(s.gate, signal), host := CutoffAbort)
    case CutoffDone => t == s.(host := DrainSend) || t == s.(host := CutoffAbort)
    case CutoffAbort => t == s.(gate := Opened(s.gate), host := Done(RolledBack, NO_SNAPSHOT))
    case _ => false
  }

  /** Phase 2: a failed Drain send is a cutoff abort, every later failure rolls back. */
  predicate DrainStep(s: State, t: State) {
    match s.host
    case DrainSend =>
      t == s.(cur := Push(s.cur, Drain), host := DrainWait) || t == s.(host := CutoffAbort)
    case DrainWait =>
      || (Head(s.cur, DrainAck) && t == s.(cur := Pop(s.cur), host := SnapshotWait))
      || (|s.cur.outbox| > 0 && !Head(s.cur, DrainAck) && t == s.(cur := Pop(s.cur), host := TeardownSuccessor))
      || t == s.(host := TeardownSuccessor)
    case _ => false
  }

  /** Phase 3: verify the snapshot the plugin sent, then acknowledge it. */
  predicate SnapshotStep(s: State, t: State) {
    match s.host
    case SnapshotWait =>
      || (|s.cur.outbox| > 0 && s.cur.outbox[0].SaveState? && Verified(s.cur.outbox[0].snap)
          && t == s.(cur := Pop(s.cur), host := SnapshotAck(s.cur.outbox[0].snap)))
      || (|s.cur.outbox| > 0 && t == s.(cur := Pop(s.cur), host := TeardownSuccessor))
      || t == s.(host := TeardownSuccessor)
    case SnapshotAck(snap) =>
      t == s.(cur := Push(s.cur, SaveStateAck), host := Spawn(snap)) || t == s.(host := TeardownSuccessor)
    case _ => false
  }

  /** Phases 4 and 5 up to the routing swap. Promote is wireConnState: it stores the
      routing pointer, then opens admission, and Run opens admission once more. */
  ghost predicate PromoteStep(s: State, t: State) {
    match s.host
    case Spawn(snap) =>
      || t == s.(host := TeardownSuccessor)
      || exists i: Instance ::
           Fresh(i, s.cur.gen + 1, AwaitRestore) && t == s.(succ := Some(i), host := RestoreSend(snap))
    case RestoreSend(snap) =>
      || t == s.(host := TeardownSuccessor)
      || (s.succ.Some? && t == s.(succ := Some(Push(s.succ.value, Restore(snap))), host := RestoreWait(snap)))
    case RestoreWait(snap) =>
      || t == s.(host := TeardownSuccessor)
      || (s.succ.Some? && |s.succ.value.outbox| > 0
          && t == s.(succ := Some(Pop(s.succ.value)),
                     host := if Head(s.succ.value, RestoreAck(true)) then Promote(snap) else TeardownSuccessor))
    case Promote(snap) =>
      || t == s.(host := TeardownSuccessor)
      || (s.succ.Some?
          && t == s.(routed := Some(s.succ.value.gen), past := s.past + {s.cur.gen}, host := PromoteOpen(snap)))
    case PromoteOpen(snap) => t == s.(gate := Opened(s.gate), host := RunOpen(snap))
    case _ => false
  }

  /** Join the answers the retired peer already produced. joinPublishedResponses
      evaluates its predicate while the budget lasts; PublishedCount loads one call's
      phase at a time. */
  predicate JoinStep(s: State, t: State) {
    match s.host
    case RunOpen(snap) =>
      t.host.Join? && t.host.snap == snap && t == s.(gate := Opened(s.gate), host := t.host)
    case Join(snap, polls) =>
      if polls > 0
      then t == s.(host := Scan(snap, polls - 1, false, CallsOf(s, s.cur.gen), 0))
           || t == s.(host := Join(snap, polls - 1))      // the transport still reads non-empty
      else t == s.(host := Scan(snap, 0, true, CallsOf(s, s.cur.gen), 0))
    case Scan(snap, polls, last, todo, count) =>
      if todo != {}
      then exists c :: c in todo && t == s.(host := Scan(snap, polls, last, todo - {c},
                         if c in s.table && s.table[c].phase == Published then count + 1 else count))
      else t == s.(host := if last || count == 0 then StopAdmission(snap, count) else Join(snap, polls))
    case _ => false
  }

  /** The teardown of the retired instance. */
  predicate RetireStep(s: State, t: State) {
    match s.host
    case StopAdmission(snap, stragglers) =>
      t == (if s.routed == Some(s.cur.gen)
            then s.(routed := None, gate := CloseExpired(Closing(s.gate), s.gate.nextSignal),
                    host := FailInFlight(snap, stragglers, CallsOf(s, s.cur.gen)))
            else s.(host := FailInFlight(snap, stragglers, CallsOf(s, s.cur.gen))))
    case FailInFlight(snap, stragglers, todo) =>
      if todo != {}
      then exists c :: c in todo && c in s.table && t == s.(
             table := s.table[c := s.table[c].(phase := Terminal)],
             reaped := if s.table[c].phase == Published then s.reaped + {c} else s.reaped,
             host := FailInFlight(snap, stragglers, todo - {c}))
      else t == s.(host := Reap(snap, stragglers))
    case Reap(snap, stragglers) =>
      t == s.(cur := s.cur.(pc := Exited), host := Done(Promoted(stragglers), snap))
    case _ => false
  }

  /** rollback from every phase past the cutoff: tear the successor down, Resume, and
      reopen only on ResumeAck. */
  predicate RollbackStep(s: State, t: State) {
    match s.host
    case TeardownSuccessor =>
      t == s.(succ := if s.succ.Some? then Some(s.succ.value.(pc := Exited)) else None, host := ResumeSend)
    case ResumeSend =>
      || t == s.(cur := Push(s.cur, Resume), host := ResumeWait)
      || t == s.(host := Done(CrashEquivalent, NO_SNAPSHOT))
    case ResumeWait =>
      || (|s.cur.outbox| > 0
          && t == s.(cur := Pop(s.cur),
                     host := if Head(s.cur, ResumeAck) then ReopenOld else Done(CrashEquivalent, NO_SNAPSHOT)))
      || t == s.(host := Done(CrashEquivalent, NO_SNAPSHOT))
    case ReopenOld => t == s.(gate := Opened(s.gate), host := Done(RolledBack, NO_SNAPSHOT))
    case _ => false
  }

  /** StopAdmission of the instance being torn down: compare-and-swap routing to none and,
      when that succeeds, close admission with a bounded join. */
  predicate DetachRouting(s: State, t: State) {
    if s.routed != Some(s.cur.gen)
    then t == s.(host := CrashFail(CallsOf(s, s.cur.gen)))
    else t == s.(routed := None, gate := Closing(s.gate),
                 host := if s.gate.active == 0 then CrashFail(CallsOf(s, s.cur.gen)) else DetachWait(s.gate.nextSignal))
  }

  /** Between transactions: the loop adopts the instance that is routing and reads its
      heartbeats. */
  predicate SupervisorStep(s: State, t: State) {
    match s.host
    case Done(outcome, snap) => (
      match outcome
      case Promoted(n) => s.succ.Some? && t == s.(cur := s.succ.value, succ := None, host := Idle)
      case RolledBack => t == s.(succ := None, host := Idle)
      case CrashEquivalent => t == s.(succ := None, host := Detach))
    case Idle => |s.cur.outbox| > 0 && t == s.(cur := Pop(s.cur))
    case _ => false
  }

  /** A restart, which a crash or an unhealthy verdict starts at any time between
      transactions: the same teardown hooks, then a fresh instance is wired. */
  ghost predicate RestartStep(s: State, t: State) {
    match s.host
    case Idle => DetachRouting(s, t)
    case Detach => DetachRouting(s, t)
    case DetachWait(signal) =>
      || (signal in s.gate.signalled && t == s.(host := CrashFail(CallsOf(s, s.cur.gen))))
      || t == s.(gate := CloseExpired(s.gate, signal), host := CrashFail(CallsOf(s, s.cur.gen)))
    case CrashFail(todo) =>
      if todo != {}
      then exists c :: c in todo && c in s.table
             && t == s.(table := s.table[c := s.table[c].(phase := Terminal)], host := CrashFail(todo - {c}))
      else t == s.(host := Wire)
    case Wire =>
      exists i: Instance :: Fresh(i, s.cur.gen + 1, Serving)
        && t == s.(cur := i, routed := Some(i.gen), host := WireOpen)
    case WireOpen => t == s.(gate := Opened(s.gate), host := Idle)
    case _ => false
  }

  ghost predicate HostStep(s: State, t: State) {
    || CutoffStep(s, t) || DrainStep(s, t) || SnapshotStep(s, t) || PromoteStep(s, t)
    || JoinStep(s, t) || RetireStep(s, t) || RollbackStep(s, t) || SupervisorStep(s, t) || RestartStep(s, t)
  }

  /** invokeCore and openStreamByID on one call. */
  predicate CallerMove(s: State, t: State, c: CallId) {
    && c in s.callers
    && var me := s.callers[c];
    match me.pc
    case Inside =>
      t == s.(callers := s.callers[c := me.(pc := if s.routed.Some? then Routed(s.routed.value) else Leaving)])
    case Routed(gen) =>
      || t == s.(callers := s.callers[c := me.(pc := Leaving)])
      || (c !in s.table && t == s.(callers := s.callers[c := me.(pc := Registered(gen))],
                                   table := s.table[c := Entry(gen, Submitted, me.stream)]))
    case Registered(gen) =>
      c in s.table && (
        if s.table[c].phase == Submitted
        then t == s.(callers := s.callers[c := me.(pc := Sending(gen))],
                     table := s.table[c := s.table[c].(phase := Published)])
        else t == s.(callers := s.callers[c := me.(pc := Leaving)]))
    case Sending(gen) =>
      || t == s.(callers := s.callers[c := me.(pc := Leaving)])
      || (me.stream && t == s.(callers := s.callers[c := me.(pc := Enqueued(gen))]))
    case Enqueued(_) =>
      t == s.(callers := s.callers[c := me.(pc := Outside, leaves := me.leaves + 1)], gate := Left(s.gate))
    case Leaving =>
      t == s.(callers := s.callers[c := me.(pc := Outside, leaves := me.leaves + 1)], gate := Left(s.gate))
    case _ => false
  }

  predicate CallerArrives(s: State, t: State, c: CallId, stream: bool) {
    && c !in s.callers && c !in s.table
    && t == s.(gate := Entered(s.gate),
               callers := s.callers[c := if s.gate.open then Caller(Inside, stream, 1, 0)
                                         else Caller(Refused, stream, 0, 0)])
  }

  /** Any terminal a response, a cancel, a deadline or a connection fault drives. */
  predicate TableStep(s: State, t: State, c: CallId) {
    c in s.table && t == s.(table := s.table[c := s.table[c].(phase := Terminal)])
  }

  ghost predicate CurStep(s: State, t: State) {
    exists j: Instance :: InstanceStep(s.cur, j) && t == s.(cur := j)
  }

  ghost predicate SuccStep(s: State, t: State) {
    s.succ.Some? && exists j: Instance :: InstanceStep(s.succ.value, j) && t == s.(succ := Some(j))
  }

  ghost predicate CallStep(s: State, t: State) {
    || (exists c :: CallerMove(s, t, c))
    || (exists c, stream :: CallerArrives(s, t, c, stream))
    || (exists c :: TableStep(s, t, c))
  }

  ghost predicate Next(s: State, t: State) {
    HostStep(s, t) || CurStep(s, t) || SuccStep(s, t) || CallStep(s, t)
  }

  ghost predicate IsRun(run: seq<State>) {
    |run| > 0 && Init(run[0]) && forall i :: 0 <= i < |run| - 1 ==> Next(run[i], run[i + 1])
  }
}

/**
  The host's Start, Stop and detached join watchers as a step system. One step is one
  critical section of the host mutex, one step of a once-guarded teardown, or the
  resolution of one blocking wait. A Start holds the mutex from its admission to its
  return, so the mutex is free exactly when no Start is under way. Any number of Starts
  follow each other and any number of Stops run at once; budgets expire at any time.
*/
module HostModel {
  import opened Common

  type Name = string
  type RuntimeId = nat
  type StopId = nat

  datatype StartPc =
    | NoStart
    | Starting(todo: seq<Name>)
    | Awaiting(rt: RuntimeId, todo: seq<Name>)     // supervisor running, first outcome not known
    | Abandoning(rt: RuntimeId, todo: seq<Name>)   // stop signal delivered
    | Selecting(rt: RuntimeId, todo: seq<Name>)    // waiting for the join, a Stop, or the budget

  datatype StopPc =
    | Arrived                                      // stopBegun broadcast, contending for the mutex
    | WaitTurn(owner: StopId)
    | Joining(todo: seq<RuntimeId>, unjoined: seq<RuntimeId>)
    | Tearing(rt: RuntimeId, todo: seq<RuntimeId>, unjoined: seq<RuntimeId>)
    | Retaining(unjoined: seq<RuntimeId>)
    | Watching(todo: seq<RuntimeId>)
    | Release(failed: bool)
    | RunRelease(failed: bool)
    | AwaitRelease(failed: bool, claimed: bool)
    | Ending(failed: bool)
    | HandOn(failed: bool)
    | Returned(ok: bool)

  datatype WatchPc = AwaitJoin | WatchTearing | WatchRelease | WatchRunRelease | WatchAwait | WatchDone

  /** The body of a runtime's teardownOnce: the relay and subscription are released between
      Draining and Unsubscribed, the host's own record is dropped under the mutex. */
  datatype OncePc = Draining | Unsubscribed | Complete

  /** What the host keeps about runtimes. `names` holds every runtime ever admitted; `torn`
      those whose teardown completed, by the once-guarded path or inline in a failed Start;
      `tears` counts how often a runtime's relay and subscription were released. */
  datatype Registry = Registry(
    names: map<RuntimeId, Name>,
    joined: set<RuntimeId>,
    runtimes: seq<RuntimeId>,
    stopping: set<Name>,
    watchers: map<RuntimeId, WatchPc>,
    once: map<RuntimeId, OncePc>,
    torn: set<RuntimeId>,
    tears: map<RuntimeId, nat>)

  /** Who is stopping the host; `handedOn` holds the done channels closed so far. */
  datatype Turn = Turn(
    stopBegun: bool, stopRequested: bool, inFlight: Option<StopId>, handedOn: set<StopId>, stops: map<StopId, StopPc>)

  /** The host's own background workers: claimed, how often, and done. */
  datatype Workers = Workers(released: bool, count: nat, finished: bool)

  datatype State = State(start: StartPc, reg: Registry, turn: Turn, workers: Workers)

  predicate Init(s: State) {
    s == State(NoStart, Registry(map[], {}, [], {}, map[], map[], {}, map[]), Turn(false, false, None, {}, map[]),
               Workers(false, 0, false))
  }

  predicate MutexFree(s: State) {
    s.start == NoStart
  }

  function Tears(s: State, r: RuntimeId): nat {
    if r in s.reg.tears then s.reg.tears[r] else 0
  }

  predicate HasRuntime(s: State, n: Name) {
    exists k :: 0 <= k < |s.reg.runtimes| && s.reg.runtimes[k] in s.reg.names && s.reg.names[s.reg.runtimes[k]] == n
  }

  /** watchJoin: at most one watcher per runtime. */
  function Watched(watchers: map<RuntimeId, WatchPc>, r: RuntimeId): map<RuntimeId, WatchPc> {
    if r in watchers then watchers else watchers[r := AwaitJoin]
  }

  /** The runtimes of a list that are not torn yet, in order. */
  function Untorn(list: seq<RuntimeId>, torn: set<RuntimeId>): seq<RuntimeId> {
    if list == [] then []
    else (if list[0] in torn then [] else [list[0]]) + Untorn(list[1..], torn)
  }

  function NamesOf(s: State, list: seq<RuntimeId>): set<Name> {
    set r | r in list && r in s.reg.names :: s.reg.names[r]
  }

  /** removeRuntime: drop the first match. */
  function Without(list: seq<RuntimeId>, r: RuntimeId): seq<RuntimeId> {
    if list == [] then []
    else if list[0] == r then list[1..]
    else [list[0]] + Without(list[1..], r)
  }

  // ---------------------------------------------------------------- Start

  predicate StartBegins(s: State, t: State) {
    s.start == NoStart && !s.workers.released && t.start.Starting? && t == s.(start := t.start)
  }

  /** startOne refuses: a bad setting, a name still stopping or taken, a Stop begun, a pin. */
  predicate StartRefuses(s: State, t: State) {
    s.start.Starting? && s.start.todo != [] && t == s.(start := Starting(s.start.todo[1..]))
  }

  predicate StartReturns(s: State, t: State) {
    s.start == Starting([]) && t == s.(start := NoStart)
  }

  /** Past every refusal: a supervisor and a relay are launched under a new runtime. */
  predicate Admits(s: State, t: State, r: RuntimeId) {
    && s.start.Starting? && s.start.todo != [] && r !in s.reg.names
    && var n := s.start.todo[0];
    && n !in s.reg.stopping && !HasRuntime(s, n) && !s.turn.stopRequested
    && t == s.(start := Awaiting(r, s.start.todo[1..]), reg := s.reg.(names := s.reg.names[r := n]))
  }

  predicate Succeeds(s: State, t: State) {
    s.start.Awaiting?
    && t == s.(start := Starting(s.start.todo), reg := s.reg.(runtimes := s.reg.runtimes + [s.start.rt]))
  }

  /** The first outcome is a failure, the budget ends, or a Stop begins. */
  predicate Fails(s: State, t: State) {
    s.start.Awaiting? && t == s.(start := Abandoning(s.start.rt, s.start.todo))
  }

  predicate Selects(s: State, t: State) {
    s.start.Abandoning? && !s.turn.stopBegun && t == s.(start := Selecting(s.start.rt, s.start.todo))
  }

  /** The supervisor joined: the attempt's relay and subscription are released here. */
  predicate TearsInline(s: State, t: State) {
    s.start.Selecting? && s.start.rt in s.reg.joined
    && t == s.(start := Starting(s.start.todo),
               reg := s.reg.(tears := s.reg.tears[s.start.rt := Tears(s, s.start.rt) + 1],
                             torn := s.reg.torn + {s.start.rt}))
  }

  /** It did not: the attempt is handed to the teardown as a stopping runtime. */
  predicate HandsOver(s: State, t: State) {
    && ((s.start.Abandoning? && s.turn.stopBegun) || s.start.Selecting?) && s.start.rt in s.reg.names
    && t == s.(start := Starting(s.start.todo),
               reg := s.reg.(runtimes := s.reg.runtimes + [s.start.rt],
                             stopping := s.reg.stopping + {s.reg.names[s.start.rt]},
                             watchers := Watched(s.reg.watchers, s.start.rt)))
  }

  ghost predicate StartStep(s: State, t: State) {
    || StartBegins(s, t) || StartRefuses(s, t) || StartReturns(s, t) || (exists r :: Admits(s, t, r))
    || Succeeds(s, t) || Fails(s, t) || Selects(s, t) || TearsInline(s, t) || HandsOver(s, t)
  }

  // ---------------------------------------------------------------- Stop

  function Goto(u: Turn, x: StopId, pc: StopPc): Turn {
    u.(stops := u.stops[x := pc])
  }

  predicate Arrives(s: State, t: State, x: StopId) {
    x !in s.turn.stops && t == s.(turn := Goto(s.turn, x, Arrived).(stopBegun := true))
  }

  predicate FindsOwner(s: State, t: State, x: StopId) {
    x in s.turn.stops && s.turn.stops[x] == Arrived && MutexFree(s) && s.turn.inFlight.Some?
    && t == s.(turn := Goto(s.turn, x, WaitTurn(s.turn.inFlight.value)))
  }

  predicate WakesUp(s: State, t: State, x: StopId) {
    x in s.turn.stops && s.turn.stops[x].WaitTurn? && s.turn.stops[x].owner in s.turn.handedOn
    && t == s.(turn := Goto(s.turn, x, Arrived))
  }

  predicate GivesUpTurn(s: State, t: State, x: StopId) {
    x in s.turn.stops && s.turn.stops[x].WaitTurn? && t == s.(turn := Goto(s.turn, x, Returned(false)))
  }

  /** beginStop's section: ownership, the latch, the snapshot and its gates together. */
  predicate TakesSnapshot(s: State, t: State, x: StopId) {
    x in s.turn.stops && s.turn.stops[x] == Arrived && MutexFree(s) && s.turn.inFlight.None?
    && t == s.(turn := Goto(s.turn, x, Joining(s.reg.runtimes, [])).(inFlight := Some(x), stopRequested := true),
               reg := s.reg.(runtimes := [], stopping := s.reg.stopping + NamesOf(s, s.reg.runtimes)))
  }

  predicate NextJoins(s: State, t: State, x: StopId) {
    x in s.turn.stops && s.turn.stops[x].Joining? && s.turn.stops[x].todo != []
    && s.turn.stops[x].todo[0] in s.reg.joined
    && var Joining(todo, unjoined) := s.turn.stops[x];
    t == s.(turn := Goto(s.turn, x, Tearing(todo[0], todo[1..], unjoined)))
  }

  predicate NextExpires(s: State, t: State, x: StopId) {
    x in s.turn.stops && s.turn.stops[x].Joining? && s.turn.stops[x].todo != []
    && s.turn.stops[x].todo[0] !in s.reg.joined
    && var Joining(todo, unjoined) := s.turn.stops[x];
    t == s.(turn := Goto(s.turn, x, Joining(todo[1..], unjoined + [todo[0]])))
  }

  predicate JoiningDone(s: State, t: State, x: StopId) {
    x in s.turn.stops && s.turn.stops[x].Joining? && s.turn.stops[x].todo == []
    && var unjoined := s.turn.stops[x].unjoined;
    t == s.(turn := Goto(s.turn, x, if unjoined == [] then Release(false) else Retaining(unjoined)))
  }

  predicate TeardownBegins(s: State, t: State, x: StopId) {
    x in s.turn.stops && s.turn.stops[x].Tearing? && s.turn.stops[x].rt !in s.reg.once
    && t == s.(reg := s.reg.(once := s.reg.once[s.turn.stops[x].rt := Draining]))
  }

  predicate TeardownReturns(s: State, t: State, x: StopId) {
    x in s.turn.stops && s.turn.stops[x].Tearing? && s.turn.stops[x].rt in s.reg.once
    && s.reg.once[s.turn.stops[x].rt] == Complete
    && t == s.(turn := Goto(s.turn, x, Joining(s.turn.stops[x].todo, s.turn.stops[x].unjoined)))
  }

  /** retainUnjoined's section. */
  predicate Retains(s: State, t: State, x: StopId) {
    x in s.turn.stops && s.turn.stops[x].Retaining? && MutexFree(s)
    && var kept := Untorn(s.turn.stops[x].unjoined, s.reg.torn);
    t == s.(turn := Goto(s.turn, x, Watching(kept)),
            reg := s.reg.(runtimes := s.reg.runtimes + kept, stopping := s.reg.stopping + NamesOf(s, kept)))
  }

  predicate WatchesNext(s: State, t: State, x: StopId) {
    x in s.turn.stops && s.turn.stops[x].Watching? && s.turn.stops[x].todo != []
    && t == s.(turn := Goto(s.turn, x, Watching(s.turn.stops[x].todo[1..])),
               reg := s.reg.(watchers := Watched(s.reg.watchers, s.turn.stops[x].todo[0])))
  }

  predicate WatchesDone(s: State, t: State, x: StopId) {
    x in s.turn.stops && s.turn.stops[x] == Watching([]) && t == s.(turn := Goto(s.turn, x, Release(true)))
  }

  /** The test of maybeReleaseWorkers. */
  predicate MayRelease(s: State) {
    s.turn.stopRequested && s.reg.stopping == {} && !s.workers.released
  }

  predicate Claims(s: State, t: State, x: StopId) {
    x in s.turn.stops && s.turn.stops[x].Release? && MutexFree(s) && MayRelease(s)
    && t == s.(turn := Goto(s.turn, x, RunRelease(s.turn.stops[x].failed)),
               workers := s.workers.(released := true, count := s.workers.count + 1))
  }

  predicate FindsClaim(s: State, t: State, x: StopId) {
    x in s.turn.stops && s.turn.stops[x].Release? && MutexFree(s) && !MayRelease(s)
    && t == s.(turn := Goto(s.turn, x, AwaitRelease(s.turn.stops[x].failed, s.workers.released)))
  }

  predicate Finishes(s: State, t: State, x: StopId) {
    x in s.turn.stops && s.turn.stops[x].RunRelease?
    && t == s.(turn := Goto(s.turn, x, Ending(s.turn.stops[x].failed)), workers := s.workers.(finished := true))
  }

  predicate SeesRelease(s: State, t: State, x: StopId) {
    x in s.turn.stops && s.turn.stops[x].AwaitRelease? && (s.turn.stops[x].claimed ==> s.workers.finished)
    && t == s.(turn := Goto(s.turn, x, Ending(s.turn.stops[x].failed)))
  }

  predicate GivesUpRelease(s: State, t: State, x: StopId) {
    x in s.turn.stops && s.turn.stops[x].AwaitRelease? && s.turn.stops[x].claimed
    && t == s.(turn := Goto(s.turn, x, Ending(true)))
  }

  predicate Ends(s: State, t: State, x: StopId) {
    x in s.turn.stops && s.turn.stops[x].Ending? && MutexFree(s)
    && t == s.(turn := Goto(s.turn, x, HandOn(s.turn.stops[x].failed)).(inFlight := None))
  }

  predicate HandsOn(s: State, t: State, x: StopId) {
    x in s.turn.stops && s.turn.stops[x].HandOn?
    && t == s.(turn := Goto(s.turn, x, Returned(!s.turn.stops[x].failed)).(handedOn := s.turn.handedOn + {x}))
  }

  predicate TurnStep(s: State, t: State, x: StopId) {
    || Arrives(s, t, x) || FindsOwner(s, t, x) || WakesUp(s, t, x) || GivesUpTurn(s, t, x) || TakesSnapshot(s, t, x)
    || Ends(s, t, x) || HandsOn(s, t, x)
  }

  predicate JoinStep(s: State, t: State, x: StopId) {
    || NextJoins(s, t, x) || NextExpires(s, t, x) || JoiningDone(s, t, x) || TeardownBegins(s, t, x)
    || TeardownReturns(s, t, x) || Retains(s, t, x) || WatchesNext(s, t, x) || WatchesDone(s, t, x)
  }

  predicate ReleaseStep(s: State, t: State, x: StopId) {
    || Claims(s, t, x) || FindsClaim(s, t, x) || Finishes(s, t, x) || SeesRelease(s, t, x) || GivesUpRelease(s, t, x)
  }

  // ---------------------------------------------------------------- teardown and watchers

  predicate Drains(s: State, t: State, r: RuntimeId) {
    r in s.reg.once && s.reg.once[r] == Draining
    && t == s.(reg := s.reg.(tears := s.reg.tears[r := Tears(s, r) + 1], once := s.reg.once[r := Unsubscribed]))
  }

  predicate Drops(s: State, t: State, r: RuntimeId) {
    r in s.reg.once && s.reg.once[r] == Unsubscribed && MutexFree(s) && r in s.reg.names
    && t == s.(reg := s.reg.(torn := s.reg.torn + {r}, runtimes := Without(s.reg.runtimes, r),
                             stopping := s.reg.stopping - {s.reg.names[r]}, once := s.reg.once[r := Complete]))
  }

  function Advance(g: Registry, r: RuntimeId, pc: WatchPc): Registry {
    g.(watchers := g.watchers[r := pc])
  }

  predicate WatcherJoins(s: State, t: State, r: RuntimeId) {
    r in s.reg.watchers && s.reg.watchers[r] == AwaitJoin && r in s.reg.joined
    && t == s.(reg := Advance(s.reg, r, WatchTearing))
  }

  predicate WatcherTears(s: State, t: State, r: RuntimeId) {
    r in s.reg.watchers && s.reg.watchers[r] == WatchTearing && r !in s.reg.once
    && t == s.(reg := s.reg.(once := s.reg.once[r := Draining]))
  }

  predicate WatcherTorn(s: State, t: State, r: RuntimeId) {
    r in s.reg.watchers && s.reg.watchers[r] == WatchTearing && r in s.reg.once && s.reg.once[r] == Complete
    && t == s.(reg := Advance(s.reg, r, WatchRelease))
  }

  predicate WatcherClaims(s: State, t: State, r: RuntimeId) {
    r in s.reg.watchers && s.reg.watchers[r] == WatchRelease && MutexFree(s) && MayRelease(s)
    && t == s.(reg := Advance(s.reg, r, WatchRunRelease),
               workers := s.workers.(released := true, count := s.workers.count + 1))
  }

  predicate WatcherFindsClaim(s: State, t: State, r: RuntimeId) {
    r in s.reg.watchers && s.reg.watchers[r] == WatchRelease && MutexFree(s) && !MayRelease(s)
    && t == s.(reg := Advance(s.reg, r, if s.workers.released then WatchAwait else WatchDone))
  }

  predicate WatcherFinishes(s: State, t: State, r: RuntimeId) {
    r in s.reg.watchers && s.reg.watchers[r] == WatchRunRelease
    && t == s.(reg := Advance(s.reg, r, WatchDone), workers := s.workers.(finished := true))
  }

  predicate WatcherSees(s: State, t: State, r: RuntimeId) {
    r in s.reg.watchers && s.reg.watchers[r] == WatchAwait && s.workers.finished
    && t == s.(reg := Advance(s.reg, r, WatchDone))
  }

  /** A supervisor's Run returns. */
  predicate RunReturns(s: State, t: State, r: RuntimeId) {
    r in s.reg.names && t == s.(reg := s.reg.(joined := s.reg.joined + {r}))
  }

  predicate RuntimeStep(s: State, t: State, r: RuntimeId) {
    || Drains(s, t, r) || Drops(s, t, r) || RunReturns(s, t, r) || WatcherJoins(s, t, r) || WatcherTears(s, t, r)
    || WatcherTorn(s, t, r) || WatcherClaims(s, t, r) || WatcherFindsClaim(s, t, r) || WatcherFinishes(s, t, r)
    || WatcherSees(s, t, r)
  }

  ghost predicate Next(s: State, t: State) {
    || StartStep(s, t)
    || (exists x :: TurnStep(s, t, x) || JoinStep(s, t, x) || ReleaseStep(s, t, x))
    || exists r :: RuntimeStep(s, t, r)
  }

  ghost predicate IsRun(run: seq<State>) {
    |run| > 0 && Init(run[0]) && forall i :: 0 <= i < |run| - 1 ==> Next(run[i], run[i + 1])
  }
}

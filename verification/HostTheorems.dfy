/** What every interleaving of Start, Stop and the join watchers keeps. */
module HostTheorems {
  import opened Common
  import opened HostModel

  // ---------------------------------------------------------------- lists

  predicate Distinct(list: seq<RuntimeId>) {
    forall i, j :: 0 <= i < j < |list| ==> list[i] != list[j]
  }

  lemma {:induction false} WithoutDrops(list: seq<RuntimeId>, r: RuntimeId)
    requires Distinct(list)
    ensures Distinct(Without(list, r)) && r !in Without(list, r)
    ensures forall q :: q in Without(list, r) <==> q in list && q != r
  {
    if list != [] {
      assert list == [list[0]] + list[1..];
      assert list[0] !in list[1..];
      if list[0] != r {
        WithoutDrops(list[1..], r);
      }
    }
  }

  lemma {:induction false} UntornKeeps(list: seq<RuntimeId>, torn: set<RuntimeId>)
    requires Distinct(list)
    ensures Distinct(Untorn(list, torn))
    ensures forall q :: q in Untorn(list, torn) <==> q in list && q !in torn
  {
    if list != [] {
      assert list == [list[0]] + list[1..];
      assert list[0] !in list[1..];
      UntornKeeps(list[1..], torn);
    }
  }

  // ---------------------------------------------------------------- invariants

  /** Admitted and not torn. */
  function Live(s: State): set<RuntimeId> {
    s.reg.names.Keys - s.reg.torn
  }

  function Attempt(start: StartPc): Option<RuntimeId> {
    match start
    case Awaiting(r, _) => Some(r)
    case Abandoning(r, _) => Some(r)
    case Selecting(r, _) => Some(r)
    case _ => None
  }

  predicate Owning(pc: StopPc) {
    pc.Joining? || pc.Tearing? || pc.Retaining? || pc.Watching? || pc.Release? || pc.RunRelease? || pc.AwaitRelease?
    || pc.Ending?
  }

  /** What a Stop took in its snapshot and still answers for. */
  function Hand(pc: StopPc): seq<RuntimeId> {
    match pc
    case Joining(todo, unjoined) => todo + unjoined
    case Tearing(r, todo, unjoined) => [r] + todo + unjoined
    case Retaining(unjoined) => unjoined
    case _ => []
  }

  predicate HoldsSnapshot(pc: StopPc) {
    pc.Joining? || pc.Tearing? || pc.Retaining?
  }

  function ToWatch(pc: StopPc): seq<RuntimeId> {
    if pc.Watching? then pc.todo else []
  }

  function Owner(stops: map<StopId, StopPc>, inFlight: Option<StopId>): StopPc {
    if inFlight.Some? && inFlight.value in stops then stops[inFlight.value] else Arrived
  }

  /** At most one Stop owns the teardown, and while it holds a snapshot the list is empty. */
  ghost predicate OwnerInv(stops: map<StopId, StopPc>, inFlight: Option<StopId>, stopRequested: bool,
                           runtimes: seq<RuntimeId>) {
    && (forall x :: x in stops ==> (Owning(stops[x]) <==> inFlight == Some(x)))
    && (inFlight.Some? ==> inFlight.value in stops && stopRequested)
    && (HoldsSnapshot(Owner(stops, inFlight)) ==> runtimes == [])
  }

  predicate AttemptInv(a: Option<RuntimeId>, s: State) {
    a.Some? ==>
      && a.value in s.reg.names && a.value !in s.reg.torn && a.value !in s.reg.runtimes && a.value !in s.reg.watchers
      && a.value !in s.reg.once && !s.turn.stopRequested && s.reg.names[a.value] !in s.reg.stopping
  }

  ghost predicate Within(list: seq<RuntimeId>, all: set<RuntimeId>) {
    forall r :: r in list ==> r in all
  }

  ghost predicate ListInv(runtimes: seq<RuntimeId>, live: set<RuntimeId>, known: set<RuntimeId>, pc: StopPc) {
    && Distinct(runtimes) && Distinct(Hand(pc))
    && Within(runtimes, live) && Within(Hand(pc), known) && Within(ToWatch(pc), known)
  }

  predicate KeysInv(known: set<RuntimeId>, torn: set<RuntimeId>, watched: set<RuntimeId>, begun: set<RuntimeId>) {
    torn <= known && watched <= known && begun <= known
  }

  /** A torn runtime nobody's once-body tore went inline, and nobody holds it. */
  ghost predicate OnceInv(once: map<RuntimeId, OncePc>, torn: set<RuntimeId>, watched: set<RuntimeId>, pc: StopPc) {
    && (forall r :: r in once ==> (once[r] == Complete <==> r in torn))
    && (forall r :: r in torn && r !in once ==> r !in watched && r !in Hand(pc) && r !in ToWatch(pc))
  }

  function Released(tears: map<RuntimeId, nat>, r: RuntimeId): nat {
    if r in tears then tears[r] else 0
  }

  ghost predicate TearsInv(known: set<RuntimeId>, tears: map<RuntimeId, nat>, torn: set<RuntimeId>,
                           once: map<RuntimeId, OncePc>) {
    && tears.Keys <= known
    && (forall r :: r in known ==>
          Released(tears, r) == if r in torn || (r in once && once[r] == Unsubscribed) then 1 else 0)
  }

  /** Every runtime not torn belongs to the Start that is making it, to the host's list, or
      to the Stop that took it from there. */
  ghost predicate LiveInv(live: set<RuntimeId>, a: Option<RuntimeId>, runtimes: seq<RuntimeId>, pc: StopPc) {
    forall r: RuntimeId :: r in live ==> a == Some(r) || r in runtimes || r in Hand(pc)
  }

  predicate Claimed(names: map<RuntimeId, Name>, live: set<RuntimeId>, n: Name) {
    exists r :: r in live && r in names && names[r] == n
  }

  predicate GateInv(names: map<RuntimeId, Name>, live: set<RuntimeId>, stopRequested: bool, stopping: set<Name>) {
    && (stopRequested ==> forall r :: r in live && r in names ==> names[r] in stopping)
    && (forall n :: n in stopping ==> Claimed(names, live, n))
  }

  predicate UniqueInv(names: map<RuntimeId, Name>, live: set<RuntimeId>) {
    forall r, q :: r in live && q in live && r in names && q in names && names[r] == names[q] ==> r == q
  }

  predicate AllTorn(s: State) {
    s.turn.stopRequested && s.reg.names.Keys <= s.reg.torn
  }

  predicate Clean(pc: StopPc, done: bool, released: bool, finished: bool) {
    match pc
    case Release(failed) => !failed ==> done
    case RunRelease(failed) => released
    case AwaitRelease(failed, claimed) => (claimed ==> released) && (!failed ==> done && claimed)
    case Ending(failed) => !failed ==> done && finished
    case HandOn(failed) => !failed ==> done && finished
    case Returned(ok) => ok ==> done && finished
    case _ => true
  }

  ghost predicate CleanInv(stops: map<StopId, StopPc>, done: bool, released: bool, finished: bool) {
    forall x :: x in stops ==> Clean(stops[x], done, released, finished)
  }

  ghost predicate ReleaseInv(s: State) {
    && s.workers.count == (if s.workers.released then 1 else 0)
    && (s.workers.released ==> AllTorn(s))
    && (s.workers.finished ==> s.workers.released)
    && (forall r :: r in s.reg.watchers && s.reg.watchers[r] == WatchRunRelease ==> s.workers.released)
  }

  predicate StillWatching(pc: WatchPc) {
    pc == AwaitJoin || pc == WatchTearing
  }

  /** Once a Stop was requested nothing is left without somebody to tear it down. */
  ghost predicate OrphanInv(live: set<RuntimeId>, stopRequested: bool, watched: set<RuntimeId>, pc: StopPc) {
    stopRequested ==> forall r :: r in live ==> r in Hand(pc) || r in watched || r in ToWatch(pc)
  }

  ghost predicate WatchersInv(watchers: map<RuntimeId, WatchPc>, torn: set<RuntimeId>) {
    forall r :: r in watchers && !StillWatching(watchers[r]) ==> r in torn
  }

  ghost predicate Structure(s: State) {
    var pc := Owner(s.turn.stops, s.turn.inFlight);
    && OwnerInv(s.turn.stops, s.turn.inFlight, s.turn.stopRequested, s.reg.runtimes)
    && AttemptInv(Attempt(s.start), s)
    && ListInv(s.reg.runtimes, Live(s), s.reg.names.Keys, pc)
    && KeysInv(s.reg.names.Keys, s.reg.torn, s.reg.watchers.Keys, s.reg.once.Keys)
    && OnceInv(s.reg.once, s.reg.torn, s.reg.watchers.Keys, pc)
    && LiveInv(Live(s), Attempt(s.start), s.reg.runtimes, pc)
    && OrphanInv(Live(s), s.turn.stopRequested, s.reg.watchers.Keys, pc)
    && WatchersInv(s.reg.watchers, s.reg.torn)
  }

  ghost predicate Accounts(s: State) {
    && TearsInv(s.reg.names.Keys, s.reg.tears, s.reg.torn, s.reg.once)
    && GateInv(s.reg.names, Live(s), s.turn.stopRequested, s.reg.stopping)
    && UniqueInv(s.reg.names, Live(s))
    && ReleaseInv(s)
    && CleanInv(s.turn.stops, AllTorn(s), s.workers.released, s.workers.finished)
  }

  ghost predicate Inv(s: State) {
    Structure(s) && Accounts(s)
  }

  // ---------------------------------------------------------------- Start

  /** Moving the program counter of Start with the same attempt in hand disturbs nothing. */
  lemma SameButStart(s: State, t: State)
    requires Inv(s) && t == s.(start := t.start) && Attempt(t.start) == Attempt(s.start)
    ensures Inv(t)
  {
  }

  lemma StartOnlyMoves(s: State, t: State)
    requires StartBegins(s, t) || StartRefuses(s, t) || StartReturns(s, t) || Fails(s, t) || Selects(s, t)
    ensures t == s.(start := t.start) && Attempt(t.start) == Attempt(s.start)
  {
  }

  lemma NoOwnerYet(s: State)
    requires Structure(s) && !s.turn.stopRequested
    ensures s.turn.inFlight.None? && Owner(s.turn.stops, s.turn.inFlight) == Arrived
  {
  }

  lemma AdmissionKeepsInv(s: State, t: State, r: RuntimeId)
    requires Inv(s) && Admits(s, t, r)
    ensures Inv(t)
  {
    var n := s.start.todo[0];
    NoOwnerYet(s);
    assert Live(t) == Live(s) + {r};
    assert t.reg.names.Keys == s.reg.names.Keys + {r};
    forall q | q in Live(s)
      ensures s.reg.names[q] != n
    {
      assert q in s.reg.runtimes;
    }
    forall m | m in t.reg.stopping
      ensures Claimed(t.reg.names, Live(t), m)
    {
      var q :| q in Live(s) && q in s.reg.names && s.reg.names[q] == m;
      assert q in Live(t) && t.reg.names[q] == m;
    }
  }

  lemma AppendKeepsDistinct(list: seq<RuntimeId>, r: RuntimeId)
    requires Distinct(list) && r !in list
    ensures Distinct(list + [r]) && forall q :: q in list + [r] <==> q in list || q == r
  {
  }

  lemma SuccessKeepsInv(s: State, t: State)
    requires Inv(s) && Succeeds(s, t)
    ensures Inv(t)
  {
    NoOwnerYet(s);
    AppendKeepsDistinct(s.reg.runtimes, s.start.rt);
    assert Live(t) == Live(s);
  }

  lemma HandOverKeepsInv(s: State, t: State)
    requires Inv(s) && HandsOver(s, t)
    ensures Inv(t)
  {
    var r := s.start.rt;
    NoOwnerYet(s);
    AppendKeepsDistinct(s.reg.runtimes, r);
    assert Live(t) == Live(s);
    forall n | n in t.reg.stopping
      ensures Claimed(t.reg.names, Live(t), n)
    {
      assert n in s.reg.stopping || (r in Live(t) && s.reg.names[r] == n);
    }
  }

  /** The failed attempt is torn down under the mutex, before anyone else could hold it. */
  lemma InlineKeepsInv(s: State, t: State)
    requires Inv(s) && TearsInline(s, t)
    ensures Inv(t)
  {
    NoOwnerYet(s);
    assert Live(t) == Live(s) - {s.start.rt};
    forall n | n in t.reg.stopping
      ensures Claimed(t.reg.names, Live(t), n)
    {
      var q :| q in Live(s) && q in s.reg.names && s.reg.names[q] == n;
      assert q in Live(t);
    }
  }

  lemma StartKeepsInv(s: State, t: State)
    requires Inv(s) && StartStep(s, t)
    ensures Inv(t)
  {
    if r :| Admits(s, t, r) {
      AdmissionKeepsInv(s, t, r);
    } else if Succeeds(s, t) {
      SuccessKeepsInv(s, t);
    } else if TearsInline(s, t) {
      InlineKeepsInv(s, t);
    } else if HandsOver(s, t) {
      HandOverKeepsInv(s, t);
    } else {
      StartOnlyMoves(s, t);
      SameButStart(s, t);
    }
  }

  // ---------------------------------------------------------------- Stop

  lemma CleanAfterMove(stops: map<StopId, StopPc>, x: StopId, pc: StopPc,
                       done: bool, released: bool, finished: bool, done': bool, released': bool, finished': bool)
    requires CleanInv(stops, done, released, finished) && Clean(pc, done', released', finished')
    requires (done ==> done') && (released ==> released') && (finished ==> finished')
    ensures CleanInv(stops[x := pc], done', released', finished')
  {
  }

  lemma MoveKeepsOwner(stops: map<StopId, StopPc>, inFlight: Option<StopId>, requested: bool, runtimes: seq<RuntimeId>,
                       x: StopId, pc: StopPc)
    requires OwnerInv(stops, inFlight, requested, runtimes)
    requires if inFlight == Some(x) then Owning(pc) && (HoldsSnapshot(pc) ==> runtimes == []) else !Owning(pc)
    ensures OwnerInv(stops[x := pc], inFlight, requested, runtimes)
    ensures Owner(stops[x := pc], inFlight) == if inFlight == Some(x) then pc else Owner(stops, inFlight)
  {
  }

  /** A Stop that does not own the teardown moves. */
  lemma BystanderMoves(s: State, t: State, x: StopId, pc: StopPc)
    requires Inv(s) && s.turn.inFlight != Some(x) && !Owning(pc)
    requires Clean(pc, AllTorn(s), s.workers.released, s.workers.finished)
    requires t == s.(turn := Goto(s.turn, x, pc).(stopBegun := t.turn.stopBegun, handedOn := t.turn.handedOn))
    ensures Inv(t)
  {
    MoveKeepsOwner(s.turn.stops, s.turn.inFlight, s.turn.stopRequested, s.reg.runtimes, x, pc);
    CleanAfterMove(s.turn.stops, x, pc, AllTorn(s), s.workers.released, s.workers.finished,
                   AllTorn(s), s.workers.released, s.workers.finished);
  }

  lemma IsOwner(s: State, x: StopId)
    requires Structure(s) && x in s.turn.stops
    ensures Owning(s.turn.stops[x]) <==> s.turn.inFlight == Some(x)
    ensures Owning(s.turn.stops[x]) ==>
              && Owner(s.turn.stops, s.turn.inFlight) == s.turn.stops[x]
              && s.turn.stopRequested && Attempt(s.start).None?
    ensures HoldsSnapshot(s.turn.stops[x]) ==> s.reg.runtimes == []
  {
  }

  lemma IsClean(s: State, x: StopId)
    requires Accounts(s) && x in s.turn.stops
    ensures Clean(s.turn.stops[x], AllTorn(s), s.workers.released, s.workers.finished)
  {
  }

  lemma HandOnKeepsInv(s: State, t: State, x: StopId)
    requires Inv(s) && HandsOn(s, t, x)
    ensures Inv(t)
  {
    IsOwner(s, x);
    IsClean(s, x);
    BystanderMoves(s, t, x, Returned(!s.turn.stops[x].failed));
  }

  lemma EndKeepsInv(s: State, t: State, x: StopId)
    requires Inv(s) && Ends(s, t, x)
    ensures Inv(t)
  {
    IsOwner(s, x);
    IsClean(s, x);
    var pc := HandOn(s.turn.stops[x].failed);
    assert Owner(t.turn.stops, t.turn.inFlight) == Arrived;
    CleanAfterMove(s.turn.stops, x, pc, AllTorn(s), s.workers.released, s.workers.finished,
                   AllTorn(s), s.workers.released, s.workers.finished);
  }

  /** Gating the names of runtimes that are not torn gates only names still in use. */
  lemma GatesAfterListing(s: State, list: seq<RuntimeId>)
    requires GateInv(s.reg.names, Live(s), s.turn.stopRequested, s.reg.stopping) && Within(list, Live(s))
    ensures forall n :: n in s.reg.stopping + NamesOf(s, list) ==> Claimed(s.reg.names, Live(s), n)
    ensures forall r :: r in list ==> r in s.reg.names && s.reg.names[r] in NamesOf(s, list)
  {
    forall n | n in NamesOf(s, list)
      ensures Claimed(s.reg.names, Live(s), n)
    {
      var r :| r in list && r in s.reg.names && s.reg.names[r] == n;
      assert r in Live(s);
    }
  }

  lemma SnapshotKeepsStructure(s: State, t: State, x: StopId)
    requires Structure(s) && TakesSnapshot(s, t, x)
    ensures Structure(t)
  {
    assert Hand(Joining(s.reg.runtimes, [])) == s.reg.runtimes;
    assert Owner(s.turn.stops, s.turn.inFlight) == Arrived;
  }

  /** The whole list becomes this Stop's snapshot, gated by name. */
  lemma SnapshotKeepsInv(s: State, t: State, x: StopId)
    requires Inv(s) && TakesSnapshot(s, t, x)
    ensures Inv(t)
  {
    SnapshotKeepsStructure(s, t, x);
    CleanAfterMove(s.turn.stops, x, Joining(s.reg.runtimes, []), AllTorn(s), s.workers.released, s.workers.finished,
                   AllTorn(t), s.workers.released, s.workers.finished);
    GatesAfterListing(s, s.reg.runtimes);
    assert forall r :: r in Live(s) ==> r in s.reg.runtimes;
  }

  lemma WaitKeepsInv(s: State, t: State, x: StopId)
    requires Inv(s) && (Arrives(s, t, x) || FindsOwner(s, t, x) || WakesUp(s, t, x) || GivesUpTurn(s, t, x))
    ensures Inv(t)
  {
    if x in s.turn.stops {
      IsOwner(s, x);
    }
    BystanderMoves(s, t, x, t.turn.stops[x]);
  }

  lemma TurnKeepsInv(s: State, t: State, x: StopId)
    requires Inv(s) && TurnStep(s, t, x)
    ensures Inv(t)
  {
    if TakesSnapshot(s, t, x) {
      SnapshotKeepsInv(s, t, x);
    } else if Ends(s, t, x) {
      EndKeepsInv(s, t, x);
    } else if HandsOn(s, t, x) {
      HandOnKeepsInv(s, t, x);
    } else {
      WaitKeepsInv(s, t, x);
    }
  }

  /** pc keeps in hand everything was held there that is not torn, and takes on nothing new. */
  ghost predicate Carries(was: StopPc, pc: StopPc, live: set<RuntimeId>) {
    && (HoldsSnapshot(pc) ==> HoldsSnapshot(was)) && Distinct(Hand(pc))
    && (forall r :: r in Hand(pc) ==> r in Hand(was))
    && (forall r :: r in ToWatch(pc) ==> r in ToWatch(was))
    && (forall r :: r in live && r in Hand(was) ==> r in Hand(pc))
    && (forall r :: r in live && r in ToWatch(was) ==> r in ToWatch(pc))
  }

  lemma OwnerMovesStructure(s: State, t: State, x: StopId, pc: StopPc)
    requires Structure(s) && s.turn.inFlight == Some(x) && Owning(pc) && Carries(s.turn.stops[x], pc, Live(s))
    requires t == s.(turn := Goto(s.turn, x, pc),
                     workers := s.workers.(released := t.workers.released, count := t.workers.count,
                           finished := t.workers.finished))
    ensures Structure(t)
  {
    MoveKeepsOwner(s.turn.stops, s.turn.inFlight, s.turn.stopRequested, s.reg.runtimes, x, pc);
  }

  lemma OwnerMoves(s: State, t: State, x: StopId, pc: StopPc)
    requires Inv(s) && s.turn.inFlight == Some(x) && Owning(pc)
    requires t == s.(turn := Goto(s.turn, x, pc)) && Carries(s.turn.stops[x], pc, Live(s))
    requires Clean(pc, AllTorn(s), s.workers.released, s.workers.finished)
    ensures Inv(t)
  {
    OwnerMovesStructure(s, t, x, pc);
    CleanAfterMove(s.turn.stops, x, pc, AllTorn(s), s.workers.released, s.workers.finished,
                   AllTorn(s), s.workers.released, s.workers.finished);
  }

  lemma Rotate(todo: seq<RuntimeId>, unjoined: seq<RuntimeId>)
    requires todo != [] && Distinct(todo + unjoined)
    ensures Distinct(todo[1..] + (unjoined + [todo[0]]))
    ensures forall r :: r in todo[1..] + (unjoined + [todo[0]]) <==> r in todo + unjoined
  {
    var was, now := todo + unjoined, todo[1..] + (unjoined + [todo[0]]);
    assert forall i :: 0 <= i < |was| - 1 ==> now[i] == was[i + 1];
    assert now[|was| - 1] == was[0];
    assert forall i :: 0 < i < |was| ==> was[i] == now[i - 1];
  }

  lemma JoinedCarries(todo: seq<RuntimeId>, unjoined: seq<RuntimeId>, live: set<RuntimeId>)
    requires todo != [] && Distinct(todo + unjoined)
    ensures Carries(Joining(todo, unjoined), Tearing(todo[0], todo[1..], unjoined), live)
  {
    assert [todo[0]] + todo[1..] + unjoined == todo + unjoined;
  }

  lemma ExpiredCarries(todo: seq<RuntimeId>, unjoined: seq<RuntimeId>, live: set<RuntimeId>)
    requires todo != [] && Distinct(todo + unjoined)
    ensures Carries(Joining(todo, unjoined), Joining(todo[1..], unjoined + [todo[0]]), live)
  {
    Rotate(todo, unjoined);
  }

  lemma TearingCarries(r: RuntimeId, todo: seq<RuntimeId>, unjoined: seq<RuntimeId>, live: set<RuntimeId>)
    requires r !in live && Distinct([r] + todo + unjoined)
    ensures Carries(Tearing(r, todo, unjoined), Joining(todo, unjoined), live)
  {
    assert [r] + todo + unjoined == [r] + (todo + unjoined);
    assert forall i :: 0 <= i < |todo + unjoined| ==> (todo + unjoined)[i] == ([r] + todo + unjoined)[i + 1];
  }

  lemma NextJoinsKeepsInv(s: State, t: State, x: StopId)
    requires Inv(s) && NextJoins(s, t, x)
    ensures Inv(t)
  {
    IsOwner(s, x);
    var Joining(todo, unjoined) := s.turn.stops[x];
    JoinedCarries(todo, unjoined, Live(s));
    OwnerMoves(s, t, x, Tearing(todo[0], todo[1..], unjoined));
  }

  lemma NextExpiresKeepsInv(s: State, t: State, x: StopId)
    requires Inv(s) && NextExpires(s, t, x)
    ensures Inv(t)
  {
    IsOwner(s, x);
    var Joining(todo, unjoined) := s.turn.stops[x];
    ExpiredCarries(todo, unjoined, Live(s));
    OwnerMoves(s, t, x, Joining(todo[1..], unjoined + [todo[0]]));
  }

  lemma JoiningCleanly(s: State, x: StopId)
    requires Structure(s) && x in s.turn.stops && s.turn.stops[x] == Joining([], [])
    ensures AllTorn(s)
  {
    IsOwner(s, x);
    assert Hand(Joining([], [])) == [];
    assert Live(s) == {};
  }

  lemma AllJoinedKeepsInv(s: State, t: State, x: StopId)
    requires Inv(s) && x in s.turn.stops && s.turn.stops[x] == Joining([], [])
    requires t == s.(turn := Goto(s.turn, x, Release(false)))
    ensures Inv(t)
  {
    IsOwner(s, x);
    JoiningCleanly(s, x);
    EmptyHanded(Joining([], []), Release(false), Live(s));
    OwnerMoves(s, t, x, Release(false));
  }

  lemma SomeUnjoinedKeepsInv(s: State, t: State, x: StopId, unjoined: seq<RuntimeId>)
    requires Inv(s) && x in s.turn.stops && s.turn.stops[x] == Joining([], unjoined)
    requires t == s.(turn := Goto(s.turn, x, Retaining(unjoined)))
    ensures Inv(t)
  {
    IsOwner(s, x);
    HandIsDistinct(s, x);
    RetainingCarries(unjoined, Live(s));
    OwnerMoves(s, t, x, Retaining(unjoined));
  }

  lemma HandIsDistinct(s: State, x: StopId)
    requires Structure(s) && x in s.turn.stops && Owning(s.turn.stops[x])
    ensures Distinct(Hand(s.turn.stops[x]))
  {
    IsOwner(s, x);
  }

  lemma RetainingCarries(unjoined: seq<RuntimeId>, live: set<RuntimeId>)
    requires Distinct(Hand(Joining([], unjoined)))
    ensures Carries(Joining([], unjoined), Retaining(unjoined), live)
  {
    assert [] + unjoined == unjoined;
  }

  lemma EmptyHanded(was: StopPc, pc: StopPc, live: set<RuntimeId>)
    requires Hand(was) == Hand(pc) == [] && ToWatch(was) == ToWatch(pc) == [] && !HoldsSnapshot(pc)
    ensures Carries(was, pc, live)
  {
  }

  lemma JoiningDoneKeepsInv(s: State, t: State, x: StopId)
    requires Inv(s) && JoiningDone(s, t, x)
    ensures Inv(t)
  {
    if s.turn.stops[x].unjoined == [] {
      AllJoinedKeepsInv(s, t, x);
    } else {
      SomeUnjoinedKeepsInv(s, t, x, s.turn.stops[x].unjoined);
    }
  }

  lemma OnceBeginsStructure(s: State, t: State, r: RuntimeId)
    requires Structure(s) && r !in s.reg.once && t == s.(reg := s.reg.(once := s.reg.once[r := Draining]))
    requires r in s.reg.watchers || r in Hand(Owner(s.turn.stops, s.turn.inFlight))
    ensures Structure(t) && r in s.reg.names && r !in s.reg.torn
  {
    if !s.turn.stopRequested {
      NoOwnerYet(s);
    }
    assert Attempt(s.start) != Some(r);
    assert t.reg.once.Keys == s.reg.once.Keys + {r};
  }

  lemma OnceBegins(s: State, t: State, r: RuntimeId)
    requires Inv(s) && r !in s.reg.once && t == s.(reg := s.reg.(once := s.reg.once[r := Draining]))
    requires r in s.reg.watchers || r in Hand(Owner(s.turn.stops, s.turn.inFlight))
    ensures Inv(t)
  {
    OnceBeginsStructure(s, t, r);
  }

  lemma TeardownBeginsKeepsInv(s: State, t: State, x: StopId)
    requires Inv(s) && TeardownBegins(s, t, x)
    ensures Inv(t)
  {
    IsOwner(s, x);
    assert s.turn.stops[x].rt in Hand(s.turn.stops[x]);
    OnceBegins(s, t, s.turn.stops[x].rt);
  }

  lemma TeardownReturnsKeepsInv(s: State, t: State, x: StopId)
    requires Inv(s) && TeardownReturns(s, t, x)
    ensures Inv(t)
  {
    IsOwner(s, x);
    var Tearing(r, todo, unjoined) := s.turn.stops[x];
    TearingCarries(r, todo, unjoined, Live(s));
    OwnerMoves(s, t, x, Joining(todo, unjoined));
  }

  lemma RetainKeepsStructure(s: State, t: State, x: StopId, kept: seq<RuntimeId>)
    requires Structure(s) && x in s.turn.stops && s.turn.stops[x].Retaining? && Attempt(s.start).None?
    requires Distinct(kept) && forall q :: q in kept <==> q in s.turn.stops[x].unjoined && q !in s.reg.torn
    requires t == s.(turn := Goto(s.turn, x, Watching(kept)),
                     reg := s.reg.(runtimes := kept, stopping := t.reg.stopping))
    ensures Structure(t)
  {
    MoveKeepsOwner(s.turn.stops, s.turn.inFlight, s.turn.stopRequested, s.reg.runtimes, x, Watching(kept));
    assert Hand(Watching(kept)) == [] && ToWatch(Watching(kept)) == kept;
    assert Within(kept, Live(s));
  }

  lemma RetainKeepsAccounts(s: State, t: State, x: StopId, kept: seq<RuntimeId>)
    requires Accounts(s) && x in s.turn.stops && Within(kept, Live(s))
    requires t == s.(turn := Goto(s.turn, x, Watching(kept)),
                     reg := s.reg.(runtimes := kept, stopping := s.reg.stopping + NamesOf(s, kept)))
    ensures Accounts(t)
  {
    CleanAfterMove(s.turn.stops, x, Watching(kept), AllTorn(s), s.workers.released, s.workers.finished,
                   AllTorn(t), s.workers.released, s.workers.finished);
    GatesAfterListing(s, kept);
  }

  /** What is not torn goes back on the list, still gated. */
  lemma RetainKeepsInv(s: State, t: State, x: StopId)
    requires Inv(s) && Retains(s, t, x)
    ensures Inv(t)
  {
    var kept := Untorn(s.turn.stops[x].unjoined, s.reg.torn);
    KeptAreLive(s, x, kept);
    RetainKeepsStructure(s, t, x, kept);
    RetainKeepsAccounts(s, t, x, kept);
  }

  lemma KeptAreLive(s: State, x: StopId, kept: seq<RuntimeId>)
    requires Structure(s) && x in s.turn.stops && s.turn.stops[x].Retaining?
    requires kept == Untorn(s.turn.stops[x].unjoined, s.reg.torn)
    ensures s.reg.runtimes + kept == kept && Attempt(s.start).None? && Within(kept, Live(s))
    ensures Distinct(kept) && forall q :: q in kept <==> q in s.turn.stops[x].unjoined && q !in s.reg.torn
  {
    IsOwner(s, x);
    UntornKeeps(s.turn.stops[x].unjoined, s.reg.torn);
    assert s.reg.runtimes == [];
    assert Hand(s.turn.stops[x]) == s.turn.stops[x].unjoined;
  }

  lemma WatchStructure(s: State, t: State, x: StopId)
    requires Structure(s) && WatchesNext(s, t, x)
    ensures Structure(t)
  {
    IsOwner(s, x);
    var todo := s.turn.stops[x].todo;
    assert todo == [todo[0]] + todo[1..];
    MoveKeepsOwner(s.turn.stops, s.turn.inFlight, s.turn.stopRequested, s.reg.runtimes, x, Watching(todo[1..]));
    assert t.reg.watchers.Keys == s.reg.watchers.Keys + {todo[0]};
    assert Hand(Watching(todo)) == [] && Hand(Watching(todo[1..])) == [];
  }

  lemma WatchKeepsInv(s: State, t: State, x: StopId)
    requires Inv(s) && WatchesNext(s, t, x)
    ensures Inv(t)
  {
    WatchStructure(s, t, x);
    CleanAfterMove(s.turn.stops, x, t.turn.stops[x], AllTorn(s), s.workers.released, s.workers.finished,
                   AllTorn(s), s.workers.released, s.workers.finished);
  }

  lemma WatchDoneKeepsInv(s: State, t: State, x: StopId)
    requires Inv(s) && WatchesDone(s, t, x)
    ensures Inv(t)
  {
    IsOwner(s, x);
    OwnerMoves(s, t, x, Release(true));
  }

  lemma JoinKeepsInv(s: State, t: State, x: StopId)
    requires Inv(s) && JoinStep(s, t, x)
    ensures Inv(t)
  {
    if NextJoins(s, t, x) {
      NextJoinsKeepsInv(s, t, x);
    } else if NextExpires(s, t, x) {
      NextExpiresKeepsInv(s, t, x);
    } else if JoiningDone(s, t, x) {
      JoiningDoneKeepsInv(s, t, x);
    } else if TeardownBegins(s, t, x) {
      TeardownBeginsKeepsInv(s, t, x);
    } else if TeardownReturns(s, t, x) {
      TeardownReturnsKeepsInv(s, t, x);
    } else if Retains(s, t, x) {
      RetainKeepsInv(s, t, x);
    } else if WatchesNext(s, t, x) {
      WatchKeepsInv(s, t, x);
    } else {
      WatchDoneKeepsInv(s, t, x);
    }
  }

  /** The release test proves what it stands for: with no name gated, nothing is live. */
  lemma NothingGatedMeansAllTorn(s: State)
    requires Inv(s) && s.turn.stopRequested
    ensures s.reg.stopping == {} <==> AllTorn(s)
  {
    if s.reg.stopping == {} {
      assert Live(s) == {};
    }
    if AllTorn(s) {
      assert Live(s) == {};
    }
  }

  /** The shape of every release step of the owner. */
  lemma ReleaseShape(s: State, t: State, x: StopId)
    requires ReleaseStep(s, t, x)
    ensures x in t.turn.stops && Owning(s.turn.stops[x]) && Owning(t.turn.stops[x])
    ensures t == s.(turn := Goto(s.turn, x, t.turn.stops[x]),
                    workers := s.workers.(released := t.workers.released, count := t.workers.count,
                          finished := t.workers.finished))
    ensures Hand(s.turn.stops[x]) == Hand(t.turn.stops[x]) == []
    ensures ToWatch(s.turn.stops[x]) == ToWatch(t.turn.stops[x]) == []
    ensures !HoldsSnapshot(t.turn.stops[x])
  {
  }

  lemma ReleaseKeepsStructure(s: State, t: State, x: StopId)
    requires Structure(s) && ReleaseStep(s, t, x)
    ensures Structure(t)
  {
    ReleaseShape(s, t, x);
    IsOwner(s, x);
    EmptyHanded(s.turn.stops[x], t.turn.stops[x], Live(s));
    OwnerMovesStructure(s, t, x, t.turn.stops[x]);
  }

  /** With all torn exactly when nothing is gated, each release step stays truthful. */
  lemma ReleaseStaysClean(s: State, t: State, x: StopId)
    requires ReleaseStep(s, t, x) && s.turn.stopRequested && (s.reg.stopping == {} <==> AllTorn(s)) && ReleaseInv(s)
    requires Clean(s.turn.stops[x], AllTorn(s), s.workers.released, s.workers.finished)
    ensures x in t.turn.stops && Clean(t.turn.stops[x], AllTorn(s), t.workers.released, t.workers.finished)
    ensures ReleaseInv(t)
    ensures AllTorn(t) == AllTorn(s)
    ensures (s.workers.released ==> t.workers.released) && (s.workers.finished ==> t.workers.finished)
  {
  }

  lemma ReleaseKeepsInv(s: State, t: State, x: StopId)
    requires Inv(s) && ReleaseStep(s, t, x)
    ensures Inv(t)
  {
    ReleaseShape(s, t, x);
    IsOwner(s, x);
    IsClean(s, x);
    NothingGatedMeansAllTorn(s);
    ReleaseStaysClean(s, t, x);
    ReleaseKeepsStructure(s, t, x);
    CleanAfterMove(s.turn.stops, x, t.turn.stops[x], AllTorn(s), s.workers.released, s.workers.finished,
                   AllTorn(s), t.workers.released, t.workers.finished);
  }

  // ---------------------------------------------------------------- teardown and watchers

  lemma DropKeepsStructure(s: State, t: State, r: RuntimeId)
    requires Structure(s) && Drops(s, t, r)
    ensures Structure(t)
  {
    WithoutDrops(s.reg.runtimes, r);
    assert Live(t) == Live(s) - {r};
    assert t.reg.once.Keys == s.reg.once.Keys;
    if HoldsSnapshot(Owner(s.turn.stops, s.turn.inFlight)) {
      assert Without([], r) == [];
    }
  }

  lemma StopsStayClean(s: State, t: State)
    requires CleanInv(s.turn.stops, AllTorn(s), s.workers.released, s.workers.finished)
    requires t.turn.stops == s.turn.stops
    requires (AllTorn(s) ==> AllTorn(t)) && (s.workers.released ==> t.workers.released)
    requires s.workers.finished ==> t.workers.finished
    ensures CleanInv(t.turn.stops, AllTorn(t), t.workers.released, t.workers.finished)
  {
    forall x | x in t.turn.stops
      ensures Clean(t.turn.stops[x], AllTorn(t), t.workers.released, t.workers.finished)
    {
      assert Clean(s.turn.stops[x], AllTorn(s), s.workers.released, s.workers.finished);
    }
  }

  lemma DropKeepsInv(s: State, t: State, r: RuntimeId)
    requires Inv(s) && Drops(s, t, r)
    ensures Inv(t)
  {
    DropKeepsStructure(s, t, r);
    assert Live(t) == Live(s) - {r} && r in Live(s);
    forall n | n in t.reg.stopping
      ensures Claimed(t.reg.names, Live(t), n)
    {
      var q :| q in Live(s) && q in s.reg.names && s.reg.names[q] == n;
      assert q in Live(t);
    }
    assert AllTorn(s) ==> AllTorn(t);
    StopsStayClean(s, t);
  }

  lemma DrainKeepsTears(known: set<RuntimeId>, tears: map<RuntimeId, nat>, torn: set<RuntimeId>,
                        once: map<RuntimeId, OncePc>, r: RuntimeId)
    requires TearsInv(known, tears, torn, once) && r in once && once[r] == Draining && r in known && r !in torn
    ensures TearsInv(known, tears[r := Released(tears, r) + 1], torn, once[r := Unsubscribed])
  {
  }

  lemma DrainKeepsStructure(s: State, t: State, r: RuntimeId)
    requires Structure(s) && Drains(s, t, r)
    ensures Structure(t) && r in s.reg.names && r !in s.reg.torn
  {
    assert t.reg.once.Keys == s.reg.once.Keys;
  }

  lemma DrainKeepsInv(s: State, t: State, r: RuntimeId)
    requires Inv(s) && Drains(s, t, r)
    ensures Inv(t)
  {
    DrainKeepsStructure(s, t, r);
    DrainKeepsTears(s.reg.names.Keys, s.reg.tears, s.reg.torn, s.reg.once, r);
  }

  lemma WatcherTearsKeepsInv(s: State, t: State, r: RuntimeId)
    requires Inv(s) && WatcherTears(s, t, r)
    ensures Inv(t)
  {
    OnceBegins(s, t, r);
  }

  lemma WatcherShape(s: State, t: State, r: RuntimeId)
    requires WatcherJoins(s, t, r) || WatcherTorn(s, t, r) || WatcherFindsClaim(s, t, r) || WatcherSees(s, t, r)
    ensures r in t.reg.watchers && t.reg.watchers[r] != WatchRunRelease
    ensures t == s.(reg := Advance(s.reg, r, t.reg.watchers[r]))
    ensures StillWatching(t.reg.watchers[r]) || !StillWatching(s.reg.watchers[r])
            || (r in s.reg.once && s.reg.once[r] == Complete)
  {
  }

  lemma WatcherKeepsStructure(s: State, t: State, r: RuntimeId, pc: WatchPc)
    requires Structure(s) && r in s.reg.watchers && (StillWatching(pc) || r in s.reg.torn)
    requires t == s.(reg := Advance(s.reg, r, pc),
                     workers := s.workers.(released := t.workers.released, count := t.workers.count,
                           finished := t.workers.finished))
    ensures Structure(t)
  {
    assert t.reg.watchers.Keys == s.reg.watchers.Keys;
  }

  lemma WatcherMoves(s: State, t: State, r: RuntimeId)
    requires Inv(s) && r in s.reg.watchers
    requires WatcherJoins(s, t, r) || WatcherTorn(s, t, r) || WatcherFindsClaim(s, t, r) || WatcherSees(s, t, r)
    ensures Inv(t)
  {
    WatcherShape(s, t, r);
    WatcherKeepsStructure(s, t, r, t.reg.watchers[r]);
  }

  lemma WatcherReleases(s: State, t: State, r: RuntimeId)
    requires Inv(s) && (WatcherClaims(s, t, r) || WatcherFinishes(s, t, r))
    ensures Inv(t)
  {
    assert t.reg.watchers.Keys == s.reg.watchers.Keys;
    if MayRelease(s) {
      NothingGatedMeansAllTorn(s);
    }
    StopsStayClean(s, t);
  }

  lemma RunReturnsKeepsInv(s: State, t: State, r: RuntimeId)
    requires Inv(s) && RunReturns(s, t, r)
    ensures Inv(t)
  {
  }

  lemma RuntimeKeepsInv(s: State, t: State, r: RuntimeId)
    requires Inv(s) && RuntimeStep(s, t, r)
    ensures Inv(t)
  {
    if Drains(s, t, r) {
      DrainKeepsInv(s, t, r);
    } else if Drops(s, t, r) {
      DropKeepsInv(s, t, r);
    } else if RunReturns(s, t, r) {
      RunReturnsKeepsInv(s, t, r);
    } else if WatcherTears(s, t, r) {
      WatcherTearsKeepsInv(s, t, r);
    } else if WatcherClaims(s, t, r) || WatcherFinishes(s, t, r) {
      WatcherReleases(s, t, r);
    } else {
      WatcherMoves(s, t, r);
    }
  }

  lemma NextKeepsInv(s: State, t: State)
    requires Inv(s) && Next(s, t)
    ensures Inv(t)
  {
    if StartStep(s, t) {
      StartKeepsInv(s, t);
    } else if x :| TurnStep(s, t, x) {
      TurnKeepsInv(s, t, x);
    } else if x :| JoinStep(s, t, x) {
      JoinKeepsInv(s, t, x);
    } else if x :| ReleaseStep(s, t, x) {
      ReleaseKeepsInv(s, t, x);
    } else {
      var r :| RuntimeStep(s, t, r);
      RuntimeKeepsInv(s, t, r);
    }
  }

  lemma InitInv(s: State)
    requires Init(s)
    ensures Inv(s)
  {
  }

  lemma {:induction false} Reachable(run: seq<State>, i: nat)
    requires IsRun(run) && i < |run|
    ensures Inv(run[i])
  {
    if i == 0 {
      InitInv(run[0]);
    } else {
      Reachable(run, i - 1);
      NextKeepsInv(run[i - 1], run[i]);
    }
  }

  // ---------------------------------------------------------------- theorems

  /** At most one runtime per name is ever not torn, each runtime's relay and subscription
      are released at most once, and the workers at most once. */
  lemma OneRuntimePerNameTornOnce(run: seq<State>, i: nat, r: RuntimeId, q: RuntimeId)
    requires IsRun(run) && i < |run|
    ensures var s := run[i];
      && (r in Live(s) && q in Live(s) && s.reg.names[r] == s.reg.names[q] ==> r == q)
      && Tears(s, r) <= 1 && (r in s.reg.torn ==> Tears(s, r) == 1)
      && s.workers.count <= 1
  {
    Reachable(run, i);
    var s := run[i];
    assert r in s.reg.names ==> Released(s.reg.tears, r) == Tears(s, r);
  }

  /** The workers go only after a Stop was requested and every runtime ever admitted is
      torn, and from then on none is admitted. */
  lemma WorkersGoLast(run: seq<State>, i: nat)
    requires IsRun(run) && i < |run| && run[i].workers.released
    ensures run[i].turn.stopRequested && run[i].reg.names.Keys <= run[i].reg.torn
    ensures i + 1 < |run| ==> run[i + 1].reg.names == run[i].reg.names && run[i + 1].workers.released
  {
    Reachable(run, i);
    if i + 1 < |run| {
      AdmissionsStop(run[i], run[i + 1]);
    }
  }

  lemma AdmissionsStop(s: State, t: State)
    requires Next(s, t) && s.turn.stopRequested
    ensures t.reg.names == s.reg.names && t.turn.stopRequested && (s.workers.released ==> t.workers.released)
  {
    if StartStep(s, t) {
      StartAdmitsNone(s, t);
    } else if x :| TurnStep(s, t, x) {
      TurnAdmitsNone(s, t, x);
    } else if x :| JoinStep(s, t, x) {
      JoinAdmitsNone(s, t, x);
    } else if x :| ReleaseStep(s, t, x) {
      ReleaseAdmitsNone(s, t, x);
    } else {
      var r :| RuntimeStep(s, t, r);
      RuntimeAdmitsNone(s, t, r);
    }
  }

  lemma StartAdmitsNone(s: State, t: State)
    requires StartStep(s, t) && s.turn.stopRequested
    ensures t.reg.names == s.reg.names && t.turn.stopRequested && t.workers.released == s.workers.released
  {
  }

  lemma TurnAdmitsNone(s: State, t: State, x: StopId)
    requires TurnStep(s, t, x) && s.turn.stopRequested
    ensures t.reg.names == s.reg.names && t.turn.stopRequested && t.workers.released == s.workers.released
  {
  }

  lemma JoinAdmitsNone(s: State, t: State, x: StopId)
    requires JoinStep(s, t, x) && s.turn.stopRequested
    ensures t.reg.names == s.reg.names && t.turn.stopRequested && t.workers.released == s.workers.released
  {
  }

  lemma ReleaseAdmitsNone(s: State, t: State, x: StopId)
    requires ReleaseStep(s, t, x) && s.turn.stopRequested
    ensures t.reg.names == s.reg.names && t.turn.stopRequested && (s.workers.released ==> t.workers.released)
  {
  }

  lemma RuntimeAdmitsNone(s: State, t: State, r: RuntimeId)
    requires RuntimeStep(s, t, r) && s.turn.stopRequested
    ensures t.reg.names == s.reg.names && t.turn.stopRequested && (s.workers.released ==> t.workers.released)
  {
  }

  /** A Stop that returns nil reports the truth: everything ever admitted is torn, and the
      release of the workers has finished, whoever ran it. */
  lemma StopReturnsNilOnlyWhenDone(run: seq<State>, i: nat, x: StopId)
    requires IsRun(run) && i < |run| && x in run[i].turn.stops && run[i].turn.stops[x] == Returned(true)
    ensures run[i].reg.names.Keys <= run[i].reg.torn && run[i].workers.released && run[i].workers.finished
  {
    Reachable(run, i);
    assert Clean(run[i].turn.stops[x], AllTorn(run[i]), run[i].workers.released, run[i].workers.finished);
  }

  /** Once a Stop was requested, every runtime not torn is in the hands of the Stop that
      owns the teardown or of a watcher that has not finished, and its name is refused. */
  lemma NoRuntimeIsOrphaned(run: seq<State>, i: nat, r: RuntimeId)
    requires IsRun(run) && i < |run| && run[i].turn.stopRequested && r in Live(run[i])
    ensures var s := run[i]; var pc := Owner(s.turn.stops, s.turn.inFlight);
      && s.reg.names[r] in s.reg.stopping
      && (r in Hand(pc) || r in ToWatch(pc) || (r in s.reg.watchers && StillWatching(s.reg.watchers[r])))
  {
    Reachable(run, i);
  }
}

/**
  What a Stop that gave up leaves behind is brought to its end: the detached watcher of a
  supervisor that joined late tears the runtime down, and the last one releases the workers.
*/
module HostWatch {
  import opened HostModel
  import opened HostTheorems

  /** Steps of one runtime's supervisor, teardown and watcher alone. */
  ghost predicate Chain(s: State, chain: seq<State>, r: RuntimeId) {
    && |chain| > 0 && chain[0] == s
    && forall k: nat :: k < |chain| - 1 ==> Link(chain, k, r)
  }

  predicate Link(chain: seq<State>, k: nat, r: RuntimeId)
    requires k + 1 < |chain|
  {
    RuntimeStep(chain[k], chain[k + 1], r)
  }

  lemma Prepend(s: State, t: State, chain: seq<State>, r: RuntimeId)
    requires RuntimeStep(s, t, r) && Chain(t, chain, r)
    ensures Chain(s, [s] + chain, r)
  {
    var longer := [s] + chain;
    forall k: nat | k < |longer| - 1
      ensures Link(longer, k, r)
    {
      assert longer[k + 1] == chain[k];
      assert k > 0 ==> longer[k] == chain[k - 1] && Link(chain, k - 1, r);
    }
  }

  /** The watcher of r has not seen its runtime torn. */
  predicate AtWork(s: State, r: RuntimeId) {
    r in s.reg.watchers && StillWatching(s.reg.watchers[r])
  }

  function OnceLeft(s: State, r: RuntimeId): nat {
    if r !in s.reg.once then 3
    else match s.reg.once[r]
      case Draining => 2
      case Unsubscribed => 1
      case Complete => 0
  }

  function Left(s: State, r: RuntimeId): nat {
    OnceLeft(s, r)
    + (if r in s.reg.joined then 0 else 1)
    + (if r in s.reg.watchers && s.reg.watchers[r] == AwaitJoin then 1 else 0)
  }

  /** From s to t only runtime r got further. */
  predicate SameHost(s: State, t: State, r: RuntimeId) {
    && t.start == s.start && t.turn == s.turn && t.workers == s.workers && t.reg.names == s.reg.names
    && s.reg.torn <= t.reg.torn <= s.reg.torn + {r}
  }

  predicate Fit(s: State, r: RuntimeId) {
    MutexFree(s) && r in s.reg.names && r in s.reg.watchers && (OnceLeft(s, r) == 0 ==> r in s.reg.torn)
  }

  lemma StepsOn(s: State, r: RuntimeId) returns (t: State)
    requires Fit(s, r) && AtWork(s, r)
    ensures RuntimeStep(s, t, r) && SameHost(s, t, r) && Fit(t, r)
    ensures t.reg.watchers[r] == WatchRelease ==> r in t.reg.torn
    ensures t.reg.watchers[r] == WatchRelease || (AtWork(t, r) && Left(t, r) < Left(s, r))
  {
    var g := s.reg;
    if g.watchers[r] == AwaitJoin && r !in g.joined {
      t := s.(reg := g.(joined := g.joined + {r}));
    } else if g.watchers[r] == AwaitJoin {
      t := s.(reg := Advance(g, r, WatchTearing));
    } else if r !in g.once {
      t := s.(reg := g.(once := g.once[r := Draining]));
    } else {
      match g.once[r]
      case Draining => t := s.(reg := g.(tears := g.tears[r := Tears(s, r) + 1], once := g.once[r := Unsubscribed]));
      case Unsubscribed =>
        t := s.(reg := g.(torn := g.torn + {r}, runtimes := Without(g.runtimes, r),
                          stopping := g.stopping - {g.names[r]}, once := g.once[r := Complete]));
      case Complete => t := s.(reg := Advance(g, r, WatchRelease));
    }
  }

  lemma {:induction false} ReachesRelease(s: State, r: RuntimeId) returns (chain: seq<State>)
    requires Fit(s, r) && AtWork(s, r)
    ensures Chain(s, chain, r)
    ensures var t := chain[|chain| - 1];
      SameHost(s, t, r) && Fit(t, r) && t.reg.watchers[r] == WatchRelease && r in t.reg.torn
    decreases Left(s, r)
  {
    var t := StepsOn(s, r);
    var rest := [t];
    if t.reg.watchers[r] != WatchRelease {
      rest := ReachesRelease(t, r);
    }
    Prepend(s, t, rest, r);
    chain := [s] + rest;
  }

  lemma {:induction false} ChainKeepsInv(s: State, chain: seq<State>, r: RuntimeId, k: nat)
    requires Inv(s) && Chain(s, chain, r) && k < |chain|
    ensures Inv(chain[k])
  {
    if k > 0 {
      ChainKeepsInv(s, chain, r, k - 1);
      assert Link(chain, k - 1, r);
      NextKeepsInv(chain[k - 1], chain[k]);
    }
  }

  lemma NothingGated(s: State)
    requires Inv(s) && s.reg.names.Keys <= s.reg.torn
    ensures s.reg.stopping == {}
  {
    assert Live(s) == {};
    assert forall n :: n in s.reg.stopping ==> Claimed(s.reg.names, Live(s), n);
  }

  lemma Append(s: State, chain: seq<State>, t: State, r: RuntimeId)
    requires Chain(s, chain, r) && RuntimeStep(chain[|chain| - 1], t, r)
    ensures Chain(s, chain + [t], r)
  {
    var longer := chain + [t];
    forall k: nat | k < |longer| - 1
      ensures Link(longer, k, r)
    {
      assert k < |chain| - 1 ==> longer[k + 1] == chain[k + 1] && Link(chain, k, r);
    }
  }

  lemma Releases(s: State, chain: seq<State>, r: RuntimeId) returns (longer: seq<State>)
    requires Chain(s, chain, r)
    requires var t := chain[|chain| - 1];
      && MutexFree(t) && r in t.reg.watchers && t.reg.watchers[r] == WatchRelease
      && t.turn.stopRequested && t.reg.stopping == {}
    ensures Chain(s, longer, r)
    ensures var t, u := chain[|chain| - 1], longer[|longer| - 1];
      u.reg.torn == t.reg.torn && u.workers.released && (!t.workers.released ==> u.workers.finished)
  {
    var t := chain[|chain| - 1];
    if t.workers.released {
      longer := chain;
    } else {
      var u := t.(reg := Advance(t.reg, r, WatchRunRelease),
                  workers := t.workers.(released := true, count := t.workers.count + 1));
      var v := u.(reg := Advance(u.reg, r, WatchDone), workers := u.workers.(finished := true));
      assert WatcherClaims(t, u, r) && WatcherFinishes(u, v, r);
      Append(s, chain, u, r);
      Append(s, chain + [u], v, r);
      longer := chain + [u] + [v];
    }
  }

  lemma WatcherIsFit(s: State, r: RuntimeId)
    requires Inv(s) && MutexFree(s) && AtWork(s, r)
    ensures Fit(s, r) && (s.workers.released ==> r in s.reg.torn)
  {
  }

  lemma LastOneUngates(s: State, chain: seq<State>, r: RuntimeId)
    requires Inv(s) && Chain(s, chain, r) && s.reg.names.Keys <= s.reg.torn + {r}
    requires var t := chain[|chain| - 1]; SameHost(s, t, r) && r in t.reg.torn
    ensures chain[|chain| - 1].reg.stopping == {}
  {
    ChainKeepsInv(s, chain, r, |chain| - 1);
    NothingGated(chain[|chain| - 1]);
  }

  /** Whenever no Start holds the host, a watcher at work can tear its runtime down with nobody
      else moving; if that was the last one behind a Stop, it releases the workers, and sees
      the release through when nobody had claimed it. */
  lemma WatcherBringsItHome(run: seq<State>, i: nat, r: RuntimeId) returns (chain: seq<State>)
    requires IsRun(run) && i < |run| && MutexFree(run[i]) && AtWork(run[i], r)
    ensures Chain(run[i], chain, r)
    ensures var s, t := run[i], chain[|chain| - 1];
      && r in t.reg.torn
      && (s.turn.stopRequested && s.reg.names.Keys <= s.reg.torn + {r} ==>
            t.workers.released && (r !in s.reg.torn ==> t.workers.finished))
  {
    Reachable(run, i);
    var s := run[i];
    WatcherIsFit(s, r);
    chain := ReachesRelease(s, r);
    if s.turn.stopRequested && s.reg.names.Keys <= s.reg.torn + {r} {
      LastOneUngates(s, chain, r);
      chain := Releases(s, chain, r);
    }
  }

  /** A watcher that ends behind a claimed release ends only once it finished. */
  lemma WatcherOutlastsTheRelease(s: State, t: State, r: RuntimeId)
    requires Inv(s) && RuntimeStep(s, t, r) && r in s.reg.watchers && s.reg.watchers[r] != WatchDone
    requires r in t.reg.watchers && t.reg.watchers[r] == WatchDone && s.workers.released
    ensures t.workers.finished
  {
  }
}

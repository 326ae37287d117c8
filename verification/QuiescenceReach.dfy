/**
  When a drain can still succeed: from which states the serve loop, its streams and the
  waiter can bring the evaluation to a true answer with nothing more entering.
*/
module QuiescenceReach {
  import opened Quiescence

  /** What may happen after s while nothing enters the transport. */
  ghost predicate Path(s: State, chain: seq<State>) {
    && |chain| > 0 && chain[0] == s
    && forall k: nat :: k < |chain| - 1 ==> Link(chain, k)
  }

  ghost predicate Link(chain: seq<State>, k: nat)
    requires k + 1 < |chain|
  {
    Next(chain[k], chain[k + 1]) && chain[k + 1].tail == chain[k].tail
  }

  ghost predicate QuiescesIn(s: State, chain: seq<State>) {
    Path(s, chain) && chain[|chain| - 1].waiter == Quiesced
  }

  ghost predicate CanQuiesce(s: State) {
    exists chain :: QuiescesIn(s, chain)
  }

  /** An obligation nobody is left to close: its reply could not be sent. */
  predicate Orphan(s: State, f: FrameId) {
    f in s.obligations && !HeldBy(s.reader, f) && (f !in s.streams || s.streams[f] == FinishedPoke)
  }

  predicate HasOrphan(s: State) {
    exists f :: f in s.obligations && Orphan(s, f)
  }

  /** Untainted, every open obligation in somebody's hands, and a reader for what is unread. */
  predicate Drainable(s: State) {
    !s.tainted && !HasOrphan(s) && !(s.reader == Stopped && Readable(s)) && s.waiter != Expired
  }

  // ---------------------------------------------------------------- hopeless for good

  /** The evaluation has not yet made the load that will find the obstacle. */
  predicate Before(w: WaiterPc, last: nat) {
    match w
    case Parked | LoadQueue | LoadPending | LoadObligations | Expired => true
    case LoadTaint => last >= 1
    case ReloadQueue => last >= 2
    case ReloadPending | Quiesced => false
  }

  predicate Hopeless(s: State) {
    || s.waiter == Expired
    || (HasOrphan(s) && Before(s.waiter, 0))
    || (s.tainted && Before(s.waiter, 1))
    || (s.reader == Stopped && Readable(s) && Before(s.waiter, 2))
  }

  /** Each obstacle stays. */
  predicate ObstaclesStay(s: State, t: State) {
    && (HasOrphan(s) ==> HasOrphan(t)) && (s.tainted ==> t.tainted)
    && (s.reader == Stopped && Readable(s) ==> t.reader == Stopped && Readable(t))
  }

  lemma OrphanStays(s: State, t: State, f: FrameId)
    requires Inv(s) && Orphan(s, f) && Next(s, t)
    ensures Orphan(t, f)
  {
    if g :| StreamStep(s, t, g) {
      assert g != f || s.streams[g] == FinishedPoke;
    } else if DispatchStep(s, t) {
      OrphanSurvivesDispatch(s, t, f);
    }
  }

  lemma OrphanSurvivesDispatch(s: State, t: State, f: FrameId)
    requires Inv(s) && Orphan(s, f) && DispatchStep(s, t)
    ensures Orphan(t, f)
  {
    assert s.reader.Holding? ==> s.reader.frame != f;
  }

  lemma TheyStay(s: State, t: State)
    requires Inv(s) && Next(s, t)
    ensures ObstaclesStay(s, t)
  {
    if HasOrphan(s) {
      var f :| f in s.obligations && Orphan(s, f);
      OrphanStays(s, t, f);
    }
    ReaderObstacleStays(s, t);
  }

  lemma ReaderObstacleStays(s: State, t: State)
    requires Next(s, t)
    ensures s.tainted ==> t.tainted
    ensures s.reader == Stopped && Readable(s) ==> t.reader == Stopped && Readable(t)
  {
  }

  lemma WaiterOnlyByItself(s: State, t: State)
    requires Next(s, t) && !WaiterStep(s, t)
    ensures t.waiter == s.waiter
  {
  }

  lemma WaiterStaysHopeless(s: State, t: State)
    requires Hopeless(s) && WaiterStep(s, t)
    ensures Hopeless(t)
  {
    assert forall f :: f in s.obligations && Orphan(s, f) ==> f in t.obligations && Orphan(t, f);
  }

  lemma StaysHopeless(s: State, t: State)
    requires Inv(s) && Hopeless(s) && Next(s, t)
    ensures Hopeless(t)
  {
    if WaiterStep(s, t) {
      WaiterStaysHopeless(s, t);
    } else {
      WaiterOnlyByItself(s, t);
      TheyStay(s, t);
    }
  }

  lemma InvStep(s: State, t: State)
    requires Inv(s) && Next(s, t)
    ensures Inv(t)
  {
    if f :| StreamStep(s, t, f) {
      StreamKeepsInv(s, t, f);
    } else if WaiterStep(s, t) {
      WaiterKeepsInv(s, t);
    } else if DispatchStep(s, t) {
      DispatchKeepsInv(s, t);
    } else if Arrive(s, t) {
      ArriveKeepsInv(s, t);
    } else {
      ReceiveKeepsInv(s, t);
    }
  }

  lemma {:induction false} HopelessForGood(s: State, chain: seq<State>, k: nat)
    requires Inv(s) && Hopeless(s) && Path(s, chain) && k < |chain|
    ensures Inv(chain[k]) && Hopeless(chain[k])
  {
    if k > 0 {
      HopelessForGood(s, chain, k - 1);
      assert Link(chain, k - 1);
      InvStep(chain[k - 1], chain[k]);
      StaysHopeless(chain[k - 1], chain[k]);
    }
  }

  // ---------------------------------------------------------------- draining

  lemma Prepend(s: State, t: State, chain: seq<State>)
    requires Next(s, t) && t.tail == s.tail && QuiescesIn(t, chain)
    ensures QuiescesIn(s, [s] + chain)
  {
    var longer := [s] + chain;
    forall k: nat | k < |longer| - 1
      ensures Link(longer, k)
    {
      assert longer[k + 1] == chain[k];
      assert k > 0 ==> longer[k] == chain[k - 1] && Link(chain, k - 1);
    }
  }

  function LoadsLeft(w: WaiterPc): nat {
    match w
    case Parked => 7
    case LoadQueue => 6
    case LoadPending => 5
    case LoadObligations => 4
    case LoadTaint => 3
    case ReloadQueue => 2
    case ReloadPending => 1
    case Quiesced | Expired => 0
  }

  /** The waiter's next load on a quiet session. */
  function Loaded(s: State): State {
    match s.waiter
    case Parked => s.(wake := false, waiter := LoadQueue)
    case LoadQueue => s.(waiter := LoadPending, mark := s.tail)
    case LoadPending => s.(waiter := LoadObligations)
    case LoadObligations => s.(waiter := LoadTaint)
    case LoadTaint => s.(waiter := ReloadQueue)
    case ReloadQueue => s.(waiter := ReloadPending)
    case _ => s.(waiter := Quiesced)
  }

  lemma {:induction false} QuietIsAnswered(s: State) returns (chain: seq<State>)
    requires Quiet(s) && s.waiter != Expired && (s.waiter == Parked ==> s.wake)
    ensures QuiescesIn(s, chain)
    decreases LoadsLeft(s.waiter)
  {
    if s.waiter == Quiesced {
      chain := [s];
    } else {
      var t := Loaded(s);
      assert WaiterStep(s, t);
      chain := QuietIsAnswered(t);
      Prepend(s, t, chain);
      chain := [s] + chain;
    }
  }

  function StreamRank(pc: StreamPc): nat {
    match pc
    case Running => 3
    case Finishing => 2
    case FinishedPoke => 1
  }

  /** One stream's next step towards its end, without a panic. */
  function Finished(s: State, f: FrameId): State
    requires f in s.streams
  {
    match s.streams[f]
    case Running => s.(streams := s.streams[f := Finishing])
    case Finishing =>
      s.(obligations := s.obligations - {f}, disposed := s.disposed + {f}, streams := s.streams[f := FinishedPoke])
    case FinishedPoke => s.(wake := true, streams := s.streams - {f})
  }

  predicate ReaderDone(s: State) {
    (s.reader == Waiting || s.reader == Stopped) && !Readable(s)
  }

  lemma FinishingKeepsDrainable(s: State, f: FrameId)
    requires Inv(s) && Drainable(s) && ReaderDone(s) && f in s.streams
    ensures Drainable(Finished(s, f)) && ReaderDone(Finished(s, f)) && StreamStep(s, Finished(s, f), f)
  {
    var t := Finished(s, f);
    forall g | g in t.obligations
      ensures !Orphan(t, g)
    {
      assert !Orphan(s, g);
    }
  }

  lemma {:induction false} StreamsFinish(s: State, f: FrameId) returns (chain: seq<State>)
    requires Inv(s) && Drainable(s) && ReaderDone(s) && f in s.streams
    ensures QuiescesIn(s, chain)
    decreases |s.streams|, StreamRank(s.streams[f])
  {
    var t := Finished(s, f);
    FinishingKeepsDrainable(s, f);
    InvStep(s, t);
    if s.streams[f] == FinishedPoke {
      assert t.streams.Keys == s.streams.Keys - {f};
      assert |t.streams.Keys| < |s.streams.Keys|;
      chain := IdleReaderDrains(t);
    } else {
      assert t.streams.Keys == s.streams.Keys;
      chain := StreamsFinish(t, f);
    }
    Prepend(s, t, chain);
    chain := [s] + chain;
  }

  lemma {:induction false} IdleReaderDrains(s: State) returns (chain: seq<State>)
    requires Inv(s) && Drainable(s) && ReaderDone(s)
    ensures QuiescesIn(s, chain)
    decreases |s.streams|, 4
  {
    if s.streams == map[] {
      assert forall f :: f in s.obligations ==> Orphan(s, f);
      assert s.obligations == {};
      chain := QuietIsAnswered(s);
    } else {
      assert s.streams.Keys != {};
      var f :| f in s.streams.Keys;
      chain := StreamsFinish(s, f);
    }
  }

  /** The reader's next step towards an empty queue: frames in hand are answered, others are
      refused. */
  function Served(s: State): State {
    match s.reader
    case Waiting => s.(reader := Reserved, pending := s.pending + 1)
    case Reserved =>
      if Readable(s) then s.(head := s.head + 1, reader := Holding(s.head)) else s.(reader := Retiring)
    case Holding(f) => s.(disposed := s.disposed + {f}, reader := Retiring)
    case Handling(f) => s.(reader := Answering(f))
    case Answering(f) => s.(obligations := s.obligations - {f}, disposed := s.disposed + {f}, reader := ClosedPoke)
    case ClosedPoke => s.(wake := true, reader := Retiring)
    case Retiring => s.(pending := s.pending - 1, reader := RetiredPoke)
    case RetiredPoke => s.(wake := true, reader := Waiting)
    case Stopped => s
  }

  function ReaderRank(r: ReaderPc): nat {
    match r
    case Waiting => 8
    case Reserved => 7
    case Holding(_) => 6
    case Handling(_) => 6
    case Answering(_) => 5
    case ClosedPoke => 4
    case Retiring => 3
    case RetiredPoke => 2
    case Stopped => 0
  }

  /** Frames unread, then steps of the current turn; a turn with nothing unread is the last. */
  function ReaderWork(s: State): (nat, nat) {
    (if s.head <= s.tail then s.tail - s.head else 0,
     if s.reader == Waiting then (if Readable(s) then 8 else 0)
     else if Readable(s) && (s.reader == Retiring || s.reader == RetiredPoke || s.reader == ClosedPoke
                             || s.reader.Handling? || s.reader.Answering? || s.reader.Holding?)
     then 10 + ReaderRank(s.reader) else ReaderRank(s.reader))
  }

  lemma ServingIsAStep(s: State)
    requires s.reader != Stopped
    ensures Next(s, Served(s)) && Served(s).tail == s.tail && Served(s).waiter == s.waiter
  {
    if s.reader.Holding? || s.reader.Handling? || s.reader.Answering? || s.reader.ClosedPoke? {
      assert DispatchStep(s, Served(s));
    } else {
      assert ReceiveStep(s, Served(s));
    }
  }

  lemma ServingKeepsDrainable(s: State)
    requires Inv(s) && Drainable(s) && s.reader != Stopped
    ensures Drainable(Served(s))
  {
    var t := Served(s);
    forall g | g in t.obligations
      ensures !Orphan(t, g)
    {
      assert !Orphan(s, g);
    }
  }

  lemma ServingIsProgress(s: State)
    requires CustodyInv(s) && s.reader != Stopped && !ReaderDone(s)
    ensures var a, b := ReaderWork(Served(s)), ReaderWork(s); a.0 < b.0 || (a.0 == b.0 && a.1 < b.1)
  {
  }

  lemma {:induction false} DrainableDrains(s: State) returns (chain: seq<State>)
    requires Inv(s) && Drainable(s)
    ensures QuiescesIn(s, chain)
    decreases ReaderWork(s).0, ReaderWork(s).1
  {
    if ReaderDone(s) {
      chain := IdleReaderDrains(s);
    } else {
      var t := Served(s);
      ServingIsAStep(s);
      ServingKeepsDrainable(s);
      ServingIsProgress(s);
      InvStep(s, t);
      chain := DrainableDrains(t);
      Prepend(s, t, chain);
      chain := [s] + chain;
    }
  }

  // ---------------------------------------------------------------- theorem

  /** At every point of every run where the evaluation still has its obligation load ahead:
      with nothing more entering it can come out true exactly when the session is drainable. */
  lemma QuiescesExactlyWhenDrainable(run: seq<State>, i: nat)
    requires IsRun(run) && i < |run| && Before(run[i].waiter, 0)
    ensures CanQuiesce(run[i]) <==> Drainable(run[i])
  {
    Reachable(run, i);
    if Drainable(run[i]) {
      var chain := DrainableDrains(run[i]);
    } else {
      assert Hopeless(run[i]);
      forall chain
        ensures !QuiescesIn(run[i], chain)
      {
        if QuiescesIn(run[i], chain) {
          HopelessForGood(run[i], chain, |chain| - 1);
        }
      }
    }
  }
}

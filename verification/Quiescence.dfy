/**
  Drain quiescence on the plugin's serve loop: the reader reserves before it dequeues,
  opens an obligation before it retires, and every close and retire pokes the waiter
  that evaluates the four-step predicate. Frames are numbered in the order they enter
  the transport.
*/
module Quiescence {
  type FrameId = nat

  datatype ReaderPc =
    | Waiting                        // in the readiness wait, holding nothing
    | Reserved                       // committed to consume, nothing dequeued yet
    | Holding(frame: FrameId)        // dequeued, not accounted
    | Handling(frame: FrameId)       // obligation open, unary handler running inline
    | Answering(frame: FrameId)      // reply owed to the transport
    | ClosedPoke                     // obligation closed, its hook not yet run
    | Retiring                       // disposition complete, reservation held
    | RetiredPoke                    // reservation dropped, poke not yet sent
    | Stopped

  /** A stream handler and its finisher, on goroutines of their own. */
  datatype StreamPc = Running | Finishing | FinishedPoke

  /** quiescedOnce one load at a time; Parked is the select of waitQuiescent. */
  datatype WaiterPc =
    | LoadQueue | LoadPending | LoadObligations | LoadTaint | ReloadQueue | ReloadPending
    | Parked | Quiesced | Expired

  /** Frames head..tail wait in the transport. `mark` is the tail as the current
      evaluation found it at step (a); `panicked` the frames whose handler panicked under
      the default policy. */
  datatype State = State(
    head: nat, tail: nat, pending: int, obligations: set<FrameId>, disposed: set<FrameId>,
    tainted: bool, panicked: set<FrameId>,
    reader: ReaderPc, streams: map<FrameId, StreamPc>,
    waiter: WaiterPc, wake: bool, mark: nat)

  predicate Init(s: State) {
    s == State(0, 0, 0, {}, {}, false, {}, Waiting, map[], LoadQueue, false, 0)
  }

  predicate Readable(s: State) {
    s.head < s.tail
  }

  predicate Arrive(s: State, t: State) {
    t == s.(tail := s.tail + 1)
  }

  predicate ReceiveStep(s: State, t: State) {
    match s.reader
    case Waiting => t == s.(reader := Reserved, pending := s.pending + 1)
    case Reserved =>
      || (Readable(s) && t == s.(head := s.head + 1, reader := Holding(s.head)))
      || t == s.(reader := Retiring)                                   // end of file: reserved, nothing read
    case Retiring => t == s.(pending := s.pending - 1, reader := RetiredPoke)
    case RetiredPoke => t == s.(wake := true, reader := Waiting) || t == s.(wake := true, reader := Stopped)
    case _ => false
  }

  predicate DispatchStep(s: State, t: State) {
    match s.reader
    case Holding(f) =>
      || t == s.(disposed := s.disposed + {f}, reader := Retiring)     // routed, refused or discarded
      || t == s.(obligations := s.obligations + {f}, reader := Handling(f))
      || t == s.(obligations := s.obligations + {f}, streams := s.streams[f := Running], reader := Retiring)
    case Handling(f) =>
      || t == s.(reader := Answering(f))
      || t == s.(tainted := true, panicked := s.panicked + {f}, reader := Answering(f))
    case Answering(f) =>
      || t == s.(obligations := s.obligations - {f}, disposed := s.disposed + {f}, reader := ClosedPoke)
      || t == s.(reader := Retiring)                                   // the send failed: the obligation stays open
    case ClosedPoke => t == s.(wake := true, reader := Retiring)
    case _ => false
  }

  predicate StreamStep(s: State, t: State, f: FrameId) {
    f in s.streams
    && match s.streams[f]
       case Running =>
         || t == s.(streams := s.streams[f := Finishing])
         || t == s.(tainted := true, panicked := s.panicked + {f}, streams := s.streams[f := Finishing])
       case Finishing =>
         t == s.(obligations := s.obligations - {f}, disposed := s.disposed + {f},
                 streams := s.streams[f := FinishedPoke])
       case FinishedPoke => t == s.(wake := true, streams := s.streams - {f})
  }

  predicate WaiterStep(s: State, t: State) {
    match s.waiter
    case LoadQueue =>
      if Readable(s) then t == s.(waiter := Parked) else t == s.(waiter := LoadPending, mark := s.tail)
    case LoadPending => t == s.(waiter := if s.pending != 0 then Parked else LoadObligations)
    case LoadObligations => t == s.(waiter := if s.obligations != {} then Parked else LoadTaint)
    case LoadTaint => t == s.(waiter := if s.tainted then Parked else ReloadQueue)
    case ReloadQueue => t == s.(waiter := if Readable(s) then Parked else ReloadPending)
    case ReloadPending => t == s.(waiter := if s.pending != 0 then Parked else Quiesced)
    case Parked =>
      (s.wake && t == s.(wake := false, waiter := LoadQueue)) || t == s.(waiter := Expired)
    case _ => false
  }

  ghost predicate Next(s: State, t: State) {
    || Arrive(s, t) || ReceiveStep(s, t) || DispatchStep(s, t) || WaiterStep(s, t)
    || exists f :: StreamStep(s, t, f)
  }

  ghost predicate IsRun(run: seq<State>) {
    |run| > 0 && Init(run[0]) && forall i :: 0 <= i < |run| - 1 ==> Next(run[i], run[i + 1])
  }

  // ---------------------------------------------------------------- custody

  predicate HeldBy(r: ReaderPc, f: FrameId) {
    (r.Holding? || r.Handling? || r.Answering?) && r.frame == f
  }

  predicate HoldsReservation(r: ReaderPc) {
    !r.Waiting? && !r.RetiredPoke? && !r.Stopped?
  }

  /** Where a frame that left the transport can be: the reader's hands, an open
      obligation, or done. There is no gap. */
  predicate Accounted(s: State, f: FrameId) {
    s.reader == Holding(f) || f in s.obligations || f in s.disposed
  }

  predicate CustodyInv(s: State) {
    && s.head <= s.tail
    && (forall f :: 0 <= f < s.head ==> Accounted(s, f))
    && (forall f :: f in s.obligations ==> f < s.head && f !in s.disposed)
    && (forall f :: f in s.disposed ==> f < s.head)
    && (s.reader.Holding? ==> s.reader.frame < s.head && s.reader.frame !in s.obligations + s.disposed)
    && (s.reader.Handling? || s.reader.Answering? ==> s.reader.frame in s.obligations)
  }

  predicate StreamsInv(s: State) {
    forall f :: f in s.streams ==>
      f < s.head && !HeldBy(s.reader, f) && (s.streams[f] != FinishedPoke ==> f in s.obligations)
  }

  predicate CountInv(s: State) {
    s.pending == (if HoldsReservation(s.reader) then 1 else 0)
  }

  predicate TaintInv(s: State) {
    && (s.panicked != {} <==> s.tainted)
    && (forall f :: f in s.panicked ==> f < s.head)
  }

  /** What the evaluation in progress has established about the frames that entered
      before its step (a). */
  predicate EvalInv(s: State) {
    && s.mark <= s.tail
    && (After(s.waiter, 1) ==> s.mark <= s.head)
    && (After(s.waiter, 2) && s.reader.Holding? ==> s.mark <= s.reader.frame)
    && (After(s.waiter, 3) ==> forall f :: 0 <= f < s.mark ==> f in s.disposed)
    && (After(s.waiter, 4) ==> forall f :: f in s.panicked ==> s.mark <= f)
  }

  /** The first n loads of the evaluation have passed. */
  predicate After(w: WaiterPc, n: nat) {
    match w
    case LoadPending => n <= 1
    case LoadObligations => n <= 2
    case LoadTaint => n <= 3
    case ReloadQueue | ReloadPending | Quiesced => n <= 4
    case _ => n == 0
  }

  predicate Quiet(s: State) {
    !Readable(s) && s.pending == 0 && s.obligations == {} && !s.tainted
  }

  predicate PokeOwed(s: State) {
    s.reader == ClosedPoke || s.reader == RetiredPoke || exists f :: f in s.streams && s.streams[f] == FinishedPoke
  }

  predicate WakeInv(s: State) {
    s.waiter == Parked && Quiet(s) ==> s.wake || PokeOwed(s)
  }

  predicate Inv(s: State) {
    CustodyInv(s) && StreamsInv(s) && CountInv(s) && TaintInv(s) && EvalInv(s) && WakeInv(s)
  }

  lemma ArriveKeepsInv(s: State, t: State)
    requires Inv(s) && Arrive(s, t)
    ensures Inv(t)
  {
    assert forall f :: 0 <= f < t.head && Accounted(s, f) ==> Accounted(t, f);
  }

  lemma ReceiveKeepsInv(s: State, t: State)
    requires Inv(s) && ReceiveStep(s, t)
    ensures Inv(t)
  {
    forall f | 0 <= f < t.head
      ensures Accounted(t, f)
    {
      assert f < s.head ==> Accounted(s, f);
    }
  }

  lemma DispatchKeepsInv(s: State, t: State)
    requires Inv(s) && DispatchStep(s, t)
    ensures Inv(t)
  {
    forall f | 0 <= f < t.head
      ensures Accounted(t, f)
    {
      assert Accounted(s, f);
    }
  }

  lemma StreamKeepsInv(s: State, t: State, f: FrameId)
    requires Inv(s) && StreamStep(s, t, f)
    ensures Inv(t)
  {
    forall g | 0 <= g < t.head
      ensures Accounted(t, g)
    {
      assert Accounted(s, g);
    }
    assert s.streams[f] == Finishing ==> t.streams[f] == FinishedPoke;
  }

  lemma WaiterKeepsEval(s: State, t: State)
    requires Inv(s) && WaiterStep(s, t)
    ensures EvalInv(t)
  {
    if s.waiter == LoadObligations && s.obligations == {} {
      forall g | 0 <= g < s.mark
        ensures g in s.disposed
      {
        assert Accounted(s, g);
      }
    }
  }

  lemma WaiterKeepsInv(s: State, t: State)
    requires Inv(s) && WaiterStep(s, t)
    ensures Inv(t)
  {
    WaiterKeepsEval(s, t);
    WaiterKeepsCustody(s, t);
    WaiterKeepsWake(s, t);
  }

  lemma WaiterKeepsCustody(s: State, t: State)
    requires CustodyInv(s) && StreamsInv(s) && CountInv(s) && TaintInv(s) && WaiterStep(s, t)
    ensures CustodyInv(t) && StreamsInv(t) && CountInv(t) && TaintInv(t)
  {
    assert forall g :: 0 <= g < t.head && Accounted(s, g) ==> Accounted(t, g);
  }

  lemma WaiterKeepsWake(s: State, t: State)
    requires WakeInv(s) && EvalInv(s) && CustodyInv(s) && TaintInv(s) && WaiterStep(s, t)
    ensures WakeInv(t)
  {
  }

  lemma {:induction false} Reachable(run: seq<State>, i: nat)
    requires IsRun(run) && i < |run|
    ensures Inv(run[i])
  {
    if i > 0 {
      Reachable(run, i - 1);
      var s, t := run[i - 1], run[i];
      if f :| StreamStep(s, t, f) {
        StreamKeepsInv(s, t, f);
      } else if WaiterStep(s, t) {
        WaiterKeepsInv(s, t);
      } else if DispatchStep(s, t) {
        DispatchKeepsInv(s, t);
      } else if Arrive(s, t) {
        ArriveKeepsInv(s, t);
      } else {
        ReceiveKeepsInv(s, t);
      }
    }
  }

  // ---------------------------------------------------------------- theorems

  /** A true evaluation certifies every frame that had entered the transport at its step
      (a): it is disposed, its obligation is closed, and its handler did not panic. */
  lemma QuiescedCertifiesEarlierFrames(run: seq<State>, i: nat, f: FrameId)
    requires IsRun(run) && i < |run| && run[i].waiter == Quiesced && f < run[i].mark
    ensures f in run[i].disposed && f !in run[i].obligations && run[i].reader != Holding(f) && f !in run[i].panicked
  {
    Reachable(run, i);
  }

  /** Nothing is left of the session: no frame unread, none in hand, no obligation open, no
      accepted handler panicked, and every frame that ever entered is disposed. */
  predicate Complete(s: State) {
    && !Readable(s) && !s.reader.Holding? && s.obligations == {} && !s.tainted && s.panicked == {}
    && forall f :: 0 <= f < s.tail ==> f in s.disposed
  }

  /** With nothing entering after step (a), which is what the cutoff provides, the whole
      session is quiet and untainted. */
  lemma QuiescedAfterCutoffIsComplete(run: seq<State>, i: nat)
    requires IsRun(run) && i < |run| && run[i].waiter == Quiesced && run[i].tail == run[i].mark
    ensures Complete(run[i])
  {
    Reachable(run, i);
  }

  /** In every run, a true evaluation during which at most k frames entered since step (a)
      leaves nothing of the session. */
  ghost predicate CompleteWithin(k: nat) {
    forall run: seq<State>, i: nat ::
      IsRun(run) && i < |run| && run[i].waiter == Quiesced && run[i].tail <= run[i].mark + k ==> Complete(run[i])
  }

  /** A true evaluation is complete exactly when no frame at all may enter behind its step
      (a): one is already too many. */
  lemma CompleteExactlyBehindTheCutoff(k: nat)
    ensures CompleteWithin(k) <==> k == 0
  {
    if k == 0 {
      forall run: seq<State>, i: nat
        | IsRun(run) && i < |run| && run[i].waiter == Quiesced && run[i].tail <= run[i].mark
        ensures Complete(run[i])
      {
        Reachable(run, i);
        QuiescedAfterCutoffIsComplete(run, i);
      }
    } else {
      LateOpenEscapesTheRecheck();
      var run: seq<State>, i: nat :| EscapesAt(run, i);
      assert !Complete(run[i]);
    }
  }

  /** The evaluation came out true with an obligation open, one frame having entered since
      step (a). */
  ghost predicate EscapesAt(run: seq<State>, i: nat) {
    && IsRun(run) && i < |run| && run[i].waiter == Quiesced
    && run[i].obligations != {} && run[i].tail == run[i].mark + 1
  }

  /** An open and a retire that fall between steps (c) and (d) leave the re-check nothing to
      see. */
  lemma LateOpenEscapesTheRecheck()
    ensures exists run: seq<State>, i: nat :: EscapesAt(run, i)
  {
    var s0 := State(0, 0, 0, {}, {}, false, {}, Waiting, map[], LoadQueue, false, 0);
    var s1 := s0.(waiter := LoadPending);
    var s2 := s1.(waiter := LoadObligations);
    var s3 := s2.(waiter := LoadTaint);
    var s4 := s3.(waiter := ReloadQueue);
    var s5 := s4.(tail := 1);
    var s6 := s5.(reader := Reserved, pending := 1);
    var s7 := s6.(head := 1, reader := Holding(0));
    var s8 := s7.(obligations := {0}, streams := map[0 := Running], reader := Retiring);
    var s9 := s8.(pending := 0, reader := RetiredPoke);
    var s10 := s9.(waiter := ReloadPending);
    var s11 := s10.(waiter := Quiesced);
    var run := [s0, s1, s2, s3, s4, s5, s6, s7, s8, s9, s10, s11];
    assert s8.obligations == s7.obligations + {0};
    assert s8.streams == s7.streams[0 := Running];
    forall i | 0 <= i < |run| - 1
      ensures Next(run[i], run[i + 1])
    {
      if i < 4 || i >= 9 {
        assert WaiterStep(run[i], run[i + 1]);
      } else if i == 4 {
        assert Arrive(run[4], run[5]);
      } else if i == 7 {
        assert DispatchStep(run[7], run[8]);
      } else {
        assert ReceiveStep(run[i], run[i + 1]);
      }
    }
    assert EscapesAt(run, 11);
  }

  /** The waiter is never stranded: parked on a quiet session, it has a token waiting or
      an actor that still owes it a poke. */
  lemma WaiterIsNeverStranded(run: seq<State>, i: nat)
    requires IsRun(run) && i < |run| && run[i].waiter == Parked && Quiet(run[i])
    ensures run[i].wake || PokeOwed(run[i])
  {
    Reachable(run, i);
  }
}

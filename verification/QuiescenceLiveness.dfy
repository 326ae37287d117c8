/**
  The drain waiter gets its answer: once the session is quiet and stays so, a waiter whose
  budget does not end finds it out, however often it was parked before. Each token it is
  poked with leads to another evaluation.
*/
module QuiescenceLiveness {
  import opened Endless
  import opened Quiescence

  ghost predicate StepsAt(f: nat -> State, k: nat) {
    Next(f(k), f(k + 1))
  }

  /** Who can move the waiter's case: itself, the reader's poke, one stream's poke. */
  predicate WaiterMovesAt(f: nat -> State, n: nat) {
    f(n + 1).waiter != f(n).waiter
  }

  predicate ReaderMovesAt(f: nat -> State, n: nat) {
    f(n + 1).reader != f(n).reader
  }

  predicate StreamMovesAt(f: nat -> State, c: FrameId, n: nat) {
    c !in f(n).streams || c !in f(n + 1).streams || f(n + 1).streams[c] != f(n).streams[c]
  }

  predicate WaiterCanMove(s: State) {
    !s.waiter.Quiesced? && !s.waiter.Expired? && (s.waiter == Parked ==> s.wake)
  }

  predicate WaiterServedAt(f: nat -> State, j: nat) {
    !WaiterCanMove(f(j)) || WaiterMovesAt(f, j)
  }

  predicate ReaderServedAt(f: nat -> State, j: nat) {
    f(j).reader != RetiredPoke || ReaderMovesAt(f, j)
  }

  predicate StreamServedAt(f: nat -> State, c: FrameId, j: nat) {
    StreamMovesAt(f, c, j)
  }

  ghost predicate WaiterServedFrom(f: nat -> State, i: nat) {
    exists j: nat :: i <= j && WaiterServedAt(f, j)
  }

  ghost predicate ReaderServedFrom(f: nat -> State, i: nat) {
    exists j: nat :: i <= j && ReaderServedAt(f, j)
  }

  ghost predicate StreamServedFrom(f: nat -> State, c: FrameId, i: nat) {
    exists j: nat :: i <= j && StreamServedAt(f, c, j)
  }

  /** An endless run fair to the waiter, to the reader's poke and to every stream. */
  ghost predicate FairRun(f: nat -> State) {
    && Init(f(0)) && (forall k: nat :: StepsAt(f, k))
    && (forall i: nat :: WaiterServedFrom(f, i))
    && (forall i: nat :: ReaderServedFrom(f, i))
    && (forall c: FrameId, i: nat :: StreamServedFrom(f, c, i))
  }

  /** From time i on nothing is unread, in hand or owed, nothing enters, and the waiter's
      budget does not end. */
  ghost predicate QuietFrom(f: nat -> State, i: nat) {
    forall n: nat :: i <= n ==> Quiet(f(n)) && f(n).waiter != Expired
  }

  lemma InvAt(f: nat -> State, k: nat)
    requires FairRun(f)
    ensures Inv(f(k))
  {
    var run := Prefix(f, k);
    forall i | 0 <= i < |run| - 1
      ensures Next(run[i], run[i + 1])
    {
      assert StepsAt(f, i);
    }
    Reachable(run, k);
  }

  // ---------------------------------------------------------------- evaluations

  /** Loads left to a true answer. */
  function LoadsLeft(w: WaiterPc): nat {
    match w
    case Parked => 7
    case LoadQueue => 6
    case LoadPending => 5
    case LoadObligations => 4
    case LoadTaint => 3
    case ReloadQueue => 2
    case ReloadPending => 1
    case Quiesced | Expired => 0
  }

  lemma OnlyTheWaiterMovesIt(s: State, t: State)
    requires Next(s, t) && t.waiter != s.waiter
    ensures WaiterStep(s, t)
  {
  }

  /** On a quiet session every load finds what it hopes for, and a token starts over. */
  lemma QuietLoadsPass(s: State, t: State)
    requires WaiterStep(s, t) && Quiet(s) && t.waiter != Expired
    ensures LoadsLeft(t.waiter) < LoadsLeft(s.waiter)
  {
  }

  // ---------------------------------------------------------------- pokes

  ghost predicate Answered(f: nat -> State, i: nat) {
    exists n: nat :: i <= n && f(n).waiter == Quiesced
  }

  lemma Later(f: nat -> State, i: nat, m: nat)
    requires i <= m && Answered(f, m)
    ensures Answered(f, i)
  {
    var n: nat :| m <= n && f(n).waiter == Quiesced;
    assert i <= n;
  }

  lemma TokenStays(s: State, t: State)
    requires Next(s, t) && s.wake && !(s.waiter == Parked && t.waiter != Parked)
    ensures t.wake
  {
  }

  /** The waiter's next move once it can make one and nothing takes that from it. */
  lemma {:induction false} WaiterMoves(f: nat -> State, i: nat, j: nat) returns (m: nat)
    requires FairRun(f) && WaiterCanMove(f(i)) && i <= j && WaiterServedAt(f, j)
    ensures i <= m && f(m).waiter == f(i).waiter && WaiterMovesAt(f, m)
    decreases j - i
  {
    if WaiterMovesAt(f, i) || i == j {
      m := i;
    } else {
      assert StepsAt(f, i);
      if f(i).waiter == Parked {
        TokenStays(f(i), f(i + 1));
      }
      m := WaiterMoves(f, i + 1, j);
    }
  }

  lemma {:induction false} EvaluationEnds(f: nat -> State, i: nat)
    requires FairRun(f) && QuietFrom(f, i) && WaiterCanMove(f(i))
    ensures Answered(f, i)
    decreases LoadsLeft(f(i).waiter)
  {
    assert WaiterServedFrom(f, i);
    var j: nat :| i <= j && WaiterServedAt(f, j);
    var m := WaiterMoves(f, i, j);
    WaiterStepAt(f, m);
    QuietLoadsPass(f(m), f(m + 1));
    if f(m + 1).waiter != Quiesced {
      EvaluationEnds(f, m + 1);
    }
    assert f(m + 1).waiter == Quiesced ==> Answered(f, m + 1);
    Later(f, i, m + 1);
  }

  lemma WaiterStepAt(f: nat -> State, m: nat)
    requires FairRun(f) && WaiterMovesAt(f, m)
    ensures WaiterStep(f(m), f(m + 1))
  {
    assert StepsAt(f, m);
    OnlyTheWaiterMovesIt(f(m), f(m + 1));
  }

  lemma RetirePokes(s: State, t: State)
    requires Next(s, t) && s.reader == RetiredPoke && t.reader != RetiredPoke
    ensures t.wake && t.waiter == s.waiter
  {
    if f :| StreamStep(s, t, f) {
    } else if !WaiterStep(s, t) && !Arrive(s, t) && !DispatchStep(s, t) {
      assert ReceiveStep(s, t);
    }
  }

  lemma FinishPokes(s: State, t: State, c: FrameId)
    requires Next(s, t) && c in s.streams && s.streams[c] == FinishedPoke
    requires c !in t.streams || t.streams[c] != FinishedPoke
    requires s.reader.Holding? ==> s.reader.frame !in s.streams
    ensures t.wake && t.waiter == s.waiter
  {
    if f :| StreamStep(s, t, f) {
      assert f == c;
    }
  }

  /** The waiter stays parked up to m, or is answered. */
  lemma {:induction false} ParkedOrAnswered(f: nat -> State, i: nat, m: nat)
    requires FairRun(f) && QuietFrom(f, i) && f(i).waiter == Parked && i <= m
    ensures Answered(f, i) || f(m).waiter == Parked
    decreases m
  {
    if i < m {
      ParkedOrAnswered(f, i, m - 1);
      if f(m - 1).waiter == Parked && f(m).waiter != Parked {
        WaiterStepAt(f, m - 1);
        EvaluationEnds(f, m);
        Later(f, i, m);
      }
    }
  }

  lemma TokenAnswers(f: nat -> State, i: nat, m: nat)
    requires FairRun(f) && QuietFrom(f, i) && f(i).waiter == Parked && i <= m && f(m).wake
    ensures Answered(f, i)
  {
    ParkedOrAnswered(f, i, m);
    if f(m).waiter == Parked {
      EvaluationEnds(f, m);
      Later(f, i, m);
    }
  }

  lemma ReaderPokes(f: nat -> State, i: nat) returns (m: nat)
    requires FairRun(f) && f(i).reader == RetiredPoke
    ensures i <= m && f(m).wake
  {
    var value := (n: nat) => f(n).reader;
    var moves := (n: nat) => ReaderMovesAt(f, n);
    assert forall n: nat :: StaysAt(value, moves, n);
    assert ReaderServedFrom(f, i);
    var j: nat :| i <= j && ReaderServedAt(f, j);
    var k := FirstMove(value, moves, i, j);
    assert StepsAt(f, k);
    RetirePokes(f(k), f(k + 1));
    m := k + 1;
  }

  lemma StreamPokes(f: nat -> State, c: FrameId, i: nat) returns (m: nat)
    requires FairRun(f) && c in f(i).streams && f(i).streams[c] == FinishedPoke
    ensures i <= m && f(m).wake
  {
    assert StreamServedFrom(f, c, i);
    var j: nat :| i <= j && StreamServedAt(f, c, j);
    m := StreamPokesBy(f, c, i, j);
  }

  lemma {:induction false} StreamPokesBy(f: nat -> State, c: FrameId, i: nat, j: nat) returns (m: nat)
    requires FairRun(f) && c in f(i).streams && f(i).streams[c] == FinishedPoke && i <= j && StreamServedAt(f, c, j)
    ensures i <= m && f(m).wake
    decreases j - i
  {
    if StreamMovesAt(f, c, i) || i == j {
      assert StepsAt(f, i);
      InvAt(f, i);
      FinishPokes(f(i), f(i + 1), c);
      m := i + 1;
    } else {
      m := StreamPokesBy(f, c, i + 1, j);
    }
  }

  // ---------------------------------------------------------------- theorem

  lemma ParkedIsAnswered(f: nat -> State, i: nat)
    requires FairRun(f) && QuietFrom(f, i) && f(i).waiter == Parked
    ensures Answered(f, i)
  {
    InvAt(f, i);
    var s := f(i);
    assert Quiet(s);
    if s.wake {
      TokenAnswers(f, i, i);
    } else if s.reader == RetiredPoke {
      var m := ReaderPokes(f, i);
      TokenAnswers(f, i, m);
    } else {
      var c :| c in s.streams && s.streams[c] == FinishedPoke;
      var m := StreamPokes(f, c, i);
      TokenAnswers(f, i, m);
    }
  }

  /** In every fair run, a waiter whose budget does not end on a session that is quiet from
      some moment on is told so. */
  lemma QuietSessionIsAnswered(f: nat -> State, i: nat) returns (n: nat)
    requires FairRun(f) && QuietFrom(f, i)
    ensures f(n).waiter == Quiesced
  {
    assert Quiet(f(i)) && f(i).waiter != Expired;
    if f(i).waiter == Quiesced {
      n := i;
    } else {
      if f(i).waiter == Parked {
        ParkedIsAnswered(f, i);
      } else {
        EvaluationEnds(f, i);
      }
      n :| i <= n && f(n).waiter == Quiesced;
    }
  }
}

/**
  Which admissions get through the taint gate: one that has begun can still reach its handler
  exactly while the session is untainted and no panic holds the write side.
*/
module TaintAdmission {
  import opened Common
  import opened TaintGate

  /** What may happen after s. */
  ghost predicate Path(s: State, chain: seq<State>) {
    && |chain| > 0 && chain[0] == s
    && forall k: nat :: k < |chain| - 1 ==> Link(chain, k)
  }

  ghost predicate Link(chain: seq<State>, k: nat)
    requires k + 1 < |chain|
  {
    Next(chain[k], chain[k + 1])
  }

  ghost predicate EntersIn(s: State, a: Id, chain: seq<State>) {
    Path(s, chain) && Entered(a) in chain[|chain| - 1].past.at
  }

  ghost predicate CanEnter(s: State, a: Id) {
    exists chain :: EntersIn(s, a, chain)
  }

  /** Admission a has begun and its taint check is still to come. */
  predicate Undecided(s: State, a: Id) {
    (s.reader.Beginning? || s.reader.Checking?) && s.reader.id == a
  }

  predicate Open(s: State) {
    !s.tainted && s.writer.None?
  }

  /** The taint check decides: an admission that finds no taint is admitted, another refused. */
  lemma CheckDecides(s: State, t: State)
    requires AdmitStep(s, t) && s.reader.Checking? && Admitted(s.reader.id) !in s.past.at
    ensures Admitted(s.reader.id) in t.past.at <==> !s.tainted
    ensures s.tainted ==> t.reader == Refusing
    ensures !s.tainted ==> t.reader == if s.reader.unary then Dispatching(s.reader.id) else Opening(s.reader.id)
  {
  }

  // ---------------------------------------------------------------- shut out

  predicate ShutOut(s: State, a: Id) {
    && Entered(a) !in s.past.at
    && ((Undecided(s, a) && !Open(s)) || s.reader == Refusing || s.reader == Stopped)
  }

  lemma AdmitStaysShut(s: State, t: State, a: Id)
    requires GateInv(s) && ShutOut(s, a) && AdmitStep(s, t)
    ensures ShutOut(t, a)
  {
  }

  lemma HandlerStaysShut(s: State, t: State, a: Id, h: Id)
    requires WriterInv(s) && PastInv(s) && ShutOut(s, a) && HandlerStep(s, t, h)
    ensures ShutOut(t, a)
  {
    if s.handlers[h].Tainted? {
      TaintIsStored(s, h);
    }
  }

  lemma TaintIsStored(s: State, h: Id)
    requires PastInv(s) && h in s.handlers && s.handlers[h].Tainted?
    ensures s.tainted
  {
    assert HandlerPast(s.past.at, h, s.handlers[h]);
    assert IsStore(Stored(h));
  }

  lemma StaysShutOut(s: State, t: State, a: Id)
    requires Inv(s) && ShutOut(s, a) && Next(s, t)
    ensures Inv(t) && ShutOut(t, a)
  {
    NextKeepsInv(s, t);
    if AdmitStep(s, t) {
      AdmitStaysShut(s, t, a);
    } else if h :| HandlerStep(s, t, h) {
      HandlerStaysShut(s, t, a, h);
    }
  }

  lemma {:induction false} ShutOutForGood(s: State, a: Id, chain: seq<State>, k: nat)
    requires Inv(s) && ShutOut(s, a) && Path(s, chain) && k < |chain|
    ensures Inv(chain[k]) && ShutOut(chain[k], a)
  {
    if k > 0 {
      ShutOutForGood(s, a, chain, k - 1);
      assert Link(chain, k - 1);
      StaysShutOut(chain[k - 1], chain[k], a);
    }
  }

  // ---------------------------------------------------------------- let in

  lemma CheckedEnters(s: State) returns (chain: seq<State>)
    requires s.reader.Checking? && !s.tainted
    ensures EntersIn(s, s.reader.id, chain)
  {
    var a := s.reader.id;
    var t, u;
    if s.reader.unary {
      t := s.(reader := Dispatching(a), dropped := false, past := s.past.Record(Admitted(a)));
      u := t.(reader := AtEntry(a), past := t.past.Record(Entered(a)));
      assert AdmitStep(s, t) && UnaryStep(t, u);
    } else {
      t := s.(reader := Opening(a), past := s.past.Record(Admitted(a)));
      u := t.(reader := Opened(a), handlers := t.handlers[a := Running], past := t.past.Record(Entered(a)));
      assert AdmitStep(s, t) && OpenStep(t, u);
    }
    chain := [s, t, u];
  }

  lemma OpenEnters(s: State, a: Id) returns (chain: seq<State>)
    requires Undecided(s, a) && Open(s)
    ensures EntersIn(s, a, chain)
  {
    if s.reader.Checking? {
      chain := CheckedEnters(s);
    } else {
      var t := s.(reader := Checking(s.reader.unary, a), readers := s.readers + 1);
      assert AdmitStep(s, t);
      var rest := CheckedEnters(t);
      chain := [s] + rest;
      forall k: nat | k < |chain| - 1
        ensures Link(chain, k)
      {
        assert chain[k + 1] == rest[k];
        assert k > 0 ==> chain[k] == rest[k - 1] && Link(rest, k - 1);
      }
    }
  }

  // ---------------------------------------------------------------- theorem

  lemma NotEnteredYet(s: State, a: Id)
    requires Inv(s) && Undecided(s, a)
    ensures Entered(a) !in s.past.at
  {
  }

  lemma ShutOutNeverEnters(s: State, a: Id, chain: seq<State>)
    requires Inv(s) && ShutOut(s, a)
    ensures !EntersIn(s, a, chain)
  {
    if EntersIn(s, a, chain) {
      ShutOutForGood(s, a, chain, |chain| - 1);
    }
  }

  /** At every point of every run, a begun admission whose check is still to come can reach its
      handler, unary or stream, exactly when no taint is stored and no panic holds the gate. */
  lemma EntersExactlyWhileOpen(run: seq<State>, i: nat, a: Id)
    requires IsRun(run) && i < |run| && Undecided(run[i], a)
    ensures CanEnter(run[i], a) <==> Open(run[i])
  {
    Reachable(run, i);
    if Open(run[i]) {
      var chain := OpenEnters(run[i], a);
    } else {
      NotEnteredYet(run[i], a);
      forall chain
        ensures !EntersIn(run[i], a, chain)
      {
        ShutOutNeverEnters(run[i], a, chain);
      }
    }
  }

  // ---------------------------------------------------------------- the panic is told

  predicate PanicUnderWay(pc: HandlerPc) {
    !pc.Running? && !pc.Returned? && !pc.Signalled?
  }

  function StepsToSignal(pc: HandlerPc): nat {
    match pc
    case Panicked => 5
    case Locked => 4
    case Tainted => 3
    case Recorded => 2
    case Queued => 1
    case _ => 0
  }

  lemma PanicGoesOn(s: State, h: Id) returns (t: State)
    requires h in s.handlers && PanicUnderWay(s.handlers[h])
    requires s.handlers[h].Panicked? ==> s.readers == 0 && s.writer.None?
    ensures HandlerStep(s, t, h) && t.handlers.Keys == s.handlers.Keys && !t.handlers[h].Panicked?
    ensures StepsToSignal(t.handlers[h]) == StepsToSignal(s.handlers[h]) - 1
    ensures !t.handlers[h].Running? && !t.handlers[h].Returned?
    ensures t.handlers[h].Signalled? ==> TerminateSignalled(h) in t.past.at
  {
    match s.handlers[h]
    case Panicked => t := s.(handlers := s.handlers[h := Locked], writer := Some(h));
    case Locked => t := s.(handlers := s.handlers[h := Tainted], tainted := true, past := s.past.Record(Stored(h)));
    case Tainted =>
      t := s.(handlers := s.handlers[h := Recorded], writer := None, past := s.past.Record(StoreReturned(h)));
    case Recorded => t := s.(handlers := s.handlers[h := Queued], past := s.past.Record(TerminalQueued(h)));
    case Queued => t := s.(handlers := s.handlers[h := Signalled], past := s.past.Record(TerminateSignalled(h)));
  }

  /** Nothing but a reader in its section holds a panic back: from the lock on, the panicked
      stream's own steps store the taint, queue its terminal and signal termination. */
  lemma {:induction false} PanicIsTold(s: State, h: Id) returns (chain: seq<State>)
    requires h in s.handlers && PanicUnderWay(s.handlers[h])
    requires s.handlers[h].Panicked? ==> s.readers == 0 && s.writer.None?
    ensures Path(s, chain) && TerminateSignalled(h) in chain[|chain| - 1].past.at
    ensures |chain| == 1 + StepsToSignal(s.handlers[h])
    decreases StepsToSignal(s.handlers[h])
  {
    var t := PanicGoesOn(s, h);
    var rest := [t];
    if PanicUnderWay(t.handlers[h]) {
      rest := PanicIsTold(t, h);
    }
    chain := [s] + rest;
    forall k: nat | k < |chain| - 1
      ensures Link(chain, k)
    {
      assert chain[k + 1] == rest[k];
      assert k > 0 ==> chain[k] == rest[k - 1] && Link(rest, k - 1);
    }
  }
}

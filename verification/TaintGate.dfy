/**
  The panic taint gate: the serve loop takes the read side of a reader/writer gate over
  the taint check and holds it through handler entry; a panicking stream handler stores
  the taint under the write side. Default panic policy. The state carries the time of each
  event and the number of releases, so that ordering claims can be stated.
*/
module TaintGate {
  import opened Common

  /** Admissions are numbered as they begin; a stream handler keeps its admission's number. */
  type Id = nat

  datatype Event =
    | Began(id: Id)          // beginAdmit is called
    | Admitted(id: Id)       // it returns true, read side held
    | Entered(id: Id)        // unary handler entry, or stream handler launch
    | Released(id: Id)       // endAdmit
    | UnaryStored(id: Id)    // recordUnaryPanic's store
    | Stored(id: Id)         // recordStreamPanicTaint's store, write side held
    | StoreReturned(id: Id)
    | TerminalQueued(id: Id)
    | TerminateSignalled(id: Id)

  datatype ReaderPc =
    | Idle
    | Beginning(unary: bool, id: Id)
    | Checking(unary: bool, id: Id)      // read side held, taint not yet loaded
    | Refusing                           // taint seen, read side to be dropped
    | Dispatching(id: Id)                // unary, inside Dispatch before any handler
    | AtEntry(id: Id)                    // top of the handler wrapper
    | Handling(id: Id)                   // application handler running
    | AfterDispatch(id: Id)
    | Sending(id: Id)
    | Deferred(id: Id)                   // the deferred release is about to run
    | Opening(id: Id)                    // onStreamOpen
    | Opened(id: Id)                     // it returned, read side to be dropped
    | Stopped

  datatype HandlerPc =
    | Running | Panicked | Locked | Tainted | Recorded | Queued | Signalled | Returned

  /** When each event happened, and how often each admission was released. */
  datatype History = History(now: nat, at: map<Event, nat>, releases: map<Id, nat>) {
    function Record(e: Event): History {
      this.(now := now + 1, at := at[e := now],
            releases := if e.Released? then releases[e.id := Releases(e.id) + 1] else releases)
    }

    function Releases(a: Id): nat {
      if a in releases then releases[a] else 0
    }

    predicate Before(e: Event, f: Event) {
      e in at && f in at && at[e] < at[f]
    }
  }

  /** `dropped` is the admitReleaser's released flag; `writer` owns the write side. */
  datatype State = State(
    reader: ReaderPc, dropped: bool, readers: int, writer: Option<Id>, tainted: bool,
    begun: nat, handlers: map<Id, HandlerPc>, past: History)

  predicate Init(s: State) {
    s == State(Idle, true, 0, None, false, 0, map[], History(0, map[], map[]))
  }

  // ---------------------------------------------------------------- steps

  predicate AdmitStep(s: State, t: State) {
    match s.reader
    case Idle =>
      || t == s.(reader := Beginning(true, s.begun), begun := s.begun + 1, past := s.past.Record(Began(s.begun)))
      || t == s.(reader := Beginning(false, s.begun), begun := s.begun + 1, past := s.past.Record(Began(s.begun)))
    case Beginning(unary, a) => s.writer.None? && t == s.(reader := Checking(unary, a), readers := s.readers + 1)
    case Checking(unary, a) =>
      if s.tainted then t == s.(reader := Refusing)
      else if unary then t == s.(reader := Dispatching(a), dropped := false, past := s.past.Record(Admitted(a)))
      else t == s.(reader := Opening(a), past := s.past.Record(Admitted(a)))
    case Refusing => t == s.(reader := Stopped, readers := s.readers - 1)
    case _ => false
  }

  /** admitReleaser.release followed by a move to `next`. */
  predicate Release(s: State, t: State, a: Id, next: ReaderPc) {
    if s.dropped then t == s.(reader := next)
    else t == s.(reader := next, dropped := true, readers := s.readers - 1, past := s.past.Record(Released(a)))
  }

  predicate UnaryStep(s: State, t: State) {
    match s.reader
    case Dispatching(a) =>
      || t == s.(reader := AtEntry(a), past := s.past.Record(Entered(a)))
      || t == s.(reader := AfterDispatch(a))       // refused before any handler
      || t == s.(reader := Deferred(a))            // framework panic unwinding
    case AtEntry(a) => Release(s, t, a, Handling(a))
    case Handling(a) =>
      || t == s.(reader := AfterDispatch(a))
      || t == s.(reader := AfterDispatch(a), tainted := true, past := s.past.Record(UnaryStored(a)))
    case AfterDispatch(a) => Release(s, t, a, Sending(a))
    case Sending(a) => t == s.(reader := Deferred(a))
    case Deferred(a) => Release(s, t, a, Idle) || Release(s, t, a, Stopped)
    case _ => false
  }

  predicate OpenStep(s: State, t: State) {
    match s.reader
    case Opening(a) =>
      || t == s.(reader := Opened(a), handlers := s.handlers[a := Running], past := s.past.Record(Entered(a)))
      || t == s.(reader := Opened(a))              // the open was refused
    case Opened(a) =>
      || t == s.(reader := Idle, readers := s.readers - 1, past := s.past.Record(Released(a)))
      || t == s.(reader := Stopped, readers := s.readers - 1, past := s.past.Record(Released(a)))
    case _ => false
  }

  predicate HandlerStep(s: State, t: State, h: Id) {
    h in s.handlers
    && match s.handlers[h]
       case Running => t == s.(handlers := s.handlers[h := Panicked]) || t == s.(handlers := s.handlers[h := Returned])
       case Panicked =>
         s.readers == 0 && s.writer.None? && t == s.(handlers := s.handlers[h := Locked], writer := Some(h))
       case Locked => t == s.(handlers := s.handlers[h := Tainted], tainted := true, past := s.past.Record(Stored(h)))
       case Tainted =>
         t == s.(handlers := s.handlers[h := Recorded], writer := None, past := s.past.Record(StoreReturned(h)))
       case Recorded => t == s.(handlers := s.handlers[h := Queued], past := s.past.Record(TerminalQueued(h)))
       case Queued => t == s.(handlers := s.handlers[h := Signalled], past := s.past.Record(TerminateSignalled(h)))
       case _ => false
  }

  ghost predicate Next(s: State, t: State) {
    AdmitStep(s, t) || UnaryStep(s, t) || OpenStep(s, t) || exists h :: HandlerStep(s, t, h)
  }

  ghost predicate IsRun(run: seq<State>) {
    |run| > 0 && Init(run[0]) && forall i :: 0 <= i < |run| - 1 ==> Next(run[i], run[i + 1])
  }

  // ---------------------------------------------------------------- invariant

  predicate IsStore(e: Event) {
    e.UnaryStored? || e.Stored?
  }

  predicate Busy(r: ReaderPc) {
    !r.Idle? && !r.Refusing? && !r.Stopped?
  }

  /** The reader's current admission, from its beginning to its end. */
  predicate Current(r: ReaderPc, a: Id) {
    Busy(r) && r.id == a
  }

  /** The reader holds the read side for an admission that passed the check. */
  predicate InSection(s: State) {
    match s.reader
    case Dispatching(_) | AtEntry(_) | Opening(_) | Opened(_) => true
    case AfterDispatch(_) | Deferred(_) => !s.dropped
    case _ => false
  }

  predicate GateInv(s: State) {
    && s.readers == (if InSection(s) || s.reader.Checking? || s.reader.Refusing? then 1 else 0)
    && (s.writer.Some? ==> s.readers == 0)
    && (InSection(s) ==> !s.tainted)
    && (s.reader.Dispatching? || s.reader.AtEntry? ==> !s.dropped)
    && (s.reader.Handling? || s.reader.Sending? ==> s.dropped)
    && (Busy(s.reader) ==> s.reader.id < s.begun)
  }

  predicate WriterInv(s: State) {
    && (forall h :: h in s.handlers ==> (s.handlers[h].Locked? || s.handlers[h].Tainted? <==> s.writer == Some(h)))
    && (s.writer.Some? ==> s.writer.value in s.handlers)
    && (forall h :: h in s.handlers ==> h < s.begun)
  }

  /** What the program counters say has and has not happened. */
  predicate ReaderPast(s: State) {
    var at := s.past.at;
    match s.reader
    case Beginning(_, a) => Began(a) in at && Admitted(a) !in at && Unentered(at, a) && a !in s.handlers
    case Checking(_, a) => Began(a) in at && Admitted(a) !in at && Unentered(at, a) && a !in s.handlers
    case Dispatching(a) => Admitted(a) in at && Unentered(at, a) && a !in s.handlers
    case Opening(a) => Admitted(a) in at && Unentered(at, a) && a !in s.handlers
    case AtEntry(a) => Admitted(a) in at && Released(a) !in at && UnaryStored(a) !in at
    case Opened(a) => Admitted(a) in at && Released(a) !in at
    case Handling(a) => Admitted(a) in at && Released(a) in at && UnaryStored(a) !in at
    case AfterDispatch(a) => Admitted(a) in at && (!s.dropped <==> Released(a) !in at)
    case Sending(a) => Admitted(a) in at && Released(a) in at
    case Deferred(a) => Admitted(a) in at && (!s.dropped <==> Released(a) !in at)
    case _ => true
  }

  predicate Unentered(at: map<Event, nat>, a: Id) {
    Entered(a) !in at && Released(a) !in at && UnaryStored(a) !in at
  }

  predicate HandlerPast(at: map<Event, nat>, h: Id, pc: HandlerPc) {
    match pc
    case Running | Panicked | Locked | Returned => Unstored(at, h)
    case Tainted =>
      Stored(h) in at && StoreReturned(h) !in at && TerminalQueued(h) !in at && TerminateSignalled(h) !in at
    case Recorded => StoreReturned(h) in at && TerminalQueued(h) !in at && TerminateSignalled(h) !in at
    case Queued => TerminalQueued(h) in at && TerminateSignalled(h) !in at
    case Signalled => TerminateSignalled(h) in at
  }

  predicate Unstored(at: map<Event, nat>, h: Id) {
    Stored(h) !in at && StoreReturned(h) !in at && TerminalQueued(h) !in at && TerminateSignalled(h) !in at
  }

  ghost predicate HandlersPast(at: map<Event, nat>, handlers: map<Id, HandlerPc>) {
    forall h: Id :: if h in handlers then HandlerPast(at, h, handlers[h]) else Unstored(at, h)
  }

  predicate StorePast(s: State) {
    !s.tainted ==> forall e :: e in s.past.at ==> !IsStore(e)
  }

  ghost predicate PastInv(s: State) {
    ReaderPast(s) && HandlersPast(s.past.at, s.handlers) && StorePast(s)
  }

  predicate ClockInv(s: State) {
    forall e :: e in s.past.at ==> s.past.at[e] < s.past.now && e.id < s.begun
  }

  ghost predicate ReleaseInv(s: State) {
    && (forall a: Id :: Admitted(a) in s.past.at ==> Released(a) in s.past.at || (InSection(s) && s.reader.id == a))
    && (forall a: Id :: s.past.Releases(a) == if Released(a) in s.past.at then 1 else 0)
    && (forall a: Id :: Released(a) in s.past.at ==> Admitted(a) in s.past.at)
  }

  /** What must already have happened when an event happens. */
  predicate Ordered(past: History, e: Event) {
    match e
    case Admitted(a) => past.Before(Began(a), e)
    case Entered(a) =>
      && past.Before(Admitted(a), e)
      && (Released(a) in past.at ==> past.Before(e, Released(a)))
      && (forall f :: f in past.at && IsStore(f) ==> past.Before(e, f))
    case StoreReturned(h) => past.Before(Stored(h), e)
    case TerminalQueued(h) => past.Before(StoreReturned(h), e)
    case TerminateSignalled(h) => past.Before(TerminalQueued(h), e)
    case Stored(_) => forall f :: f in past.at && f.Admitted? && past.Before(f, e) ==> past.Before(Released(f.id), e)
    case _ => true
  }

  predicate OrderInv(s: State) {
    forall e :: e in s.past.at ==> Ordered(s.past, e)
  }

  ghost predicate Inv(s: State) {
    GateInv(s) && WriterInv(s) && PastInv(s) && ClockInv(s) && ReleaseInv(s) && OrderInv(s)
  }

  /** Recording a new event later than all others disturbs nothing already ordered. */
  lemma RecordKeepsOrder(s: State, x: Event, e: Event)
    requires ClockInv(s) && x !in s.past.at && e in s.past.at && Ordered(s.past, e)
    ensures Ordered(s.past.Record(x), e)
  {
  }

  lemma RecordingKeepsOrder(s: State, t: State, x: Event)
    requires ClockInv(s) && OrderInv(s)
    requires x !in s.past.at && t.past == s.past.Record(x) && Ordered(t.past, x)
    ensures OrderInv(t)
  {
    forall e | e in t.past.at
      ensures Ordered(t.past, e)
    {
      if e != x {
        RecordKeepsOrder(s, x, e);
      }
    }
  }

  // The reader's own events leave what is known of the handlers alone.

  lemma AdmitKeepsHandlersPast(s: State, t: State)
    requires HandlersPast(s.past.at, s.handlers) && AdmitStep(s, t)
    ensures HandlersPast(t.past.at, t.handlers)
  {
    forall h: Id
      ensures if h in t.handlers then HandlerPast(t.past.at, h, t.handlers[h]) else Unstored(t.past.at, h)
    {
      assert if h in s.handlers then HandlerPast(s.past.at, h, s.handlers[h]) else Unstored(s.past.at, h);
    }
  }

  lemma UnaryKeepsHandlersPast(s: State, t: State)
    requires HandlersPast(s.past.at, s.handlers) && UnaryStep(s, t)
    ensures HandlersPast(t.past.at, t.handlers)
  {
    forall h: Id
      ensures if h in t.handlers then HandlerPast(t.past.at, h, t.handlers[h]) else Unstored(t.past.at, h)
    {
      assert if h in s.handlers then HandlerPast(s.past.at, h, s.handlers[h]) else Unstored(s.past.at, h);
    }
  }

  lemma OpenKeepsHandlersPast(s: State, t: State)
    requires HandlersPast(s.past.at, s.handlers) && OpenStep(s, t)
    requires s.reader.Opening? ==> s.reader.id !in s.handlers
    ensures HandlersPast(t.past.at, t.handlers)
  {
    forall h: Id
      ensures if h in t.handlers then HandlerPast(t.past.at, h, t.handlers[h]) else Unstored(t.past.at, h)
    {
      assert if h in s.handlers then HandlerPast(s.past.at, h, s.handlers[h]) else Unstored(s.past.at, h);
    }
  }

  lemma AdmitKeepsGate(s: State, t: State)
    requires GateInv(s) && WriterInv(s) && AdmitStep(s, t)
    ensures GateInv(t) && WriterInv(t)
  {
  }

  lemma AdmitKeepsReaderPast(s: State, t: State)
    requires GateInv(s) && WriterInv(s) && ReaderPast(s) && StorePast(s) && ClockInv(s) && AdmitStep(s, t)
    ensures ReaderPast(t) && StorePast(t)
  {
  }

  lemma AdmitKeepsRelease(s: State, t: State)
    requires GateInv(s) && ReaderPast(s) && ClockInv(s) && ReleaseInv(s) && AdmitStep(s, t)
    ensures ClockInv(t) && ReleaseInv(t)
  {
  }

  lemma UnaryKeepsGate(s: State, t: State)
    requires GateInv(s) && WriterInv(s) && UnaryStep(s, t)
    ensures GateInv(t) && WriterInv(t)
  {
  }

  lemma UnaryKeepsReaderPast(s: State, t: State)
    requires GateInv(s) && WriterInv(s) && ReaderPast(s) && StorePast(s) && ClockInv(s) && UnaryStep(s, t)
    ensures ReaderPast(t) && StorePast(t)
  {
  }

  lemma UnaryKeepsRelease(s: State, t: State)
    requires GateInv(s) && ReaderPast(s) && ClockInv(s) && ReleaseInv(s) && UnaryStep(s, t)
    ensures ClockInv(t) && ReleaseInv(t)
  {
  }

  lemma OpenKeepsGate(s: State, t: State)
    requires GateInv(s) && WriterInv(s) && OpenStep(s, t)
    ensures GateInv(t) && WriterInv(t)
  {
  }

  lemma OpenKeepsReaderPast(s: State, t: State)
    requires GateInv(s) && WriterInv(s) && ReaderPast(s) && StorePast(s) && ClockInv(s) && OpenStep(s, t)
    ensures ReaderPast(t) && StorePast(t)
  {
  }

  lemma OpenKeepsRelease(s: State, t: State)
    requires GateInv(s) && ReaderPast(s) && ClockInv(s) && ReleaseInv(s) && OpenStep(s, t)
    ensures ClockInv(t) && ReleaseInv(t)
  {
  }

  lemma HandlerKeepsGate(s: State, t: State, h: Id)
    requires GateInv(s) && WriterInv(s) && HandlerStep(s, t, h)
    ensures GateInv(t) && WriterInv(t)
  {
  }

  lemma HandlerKeepsReaderPast(s: State, t: State, h: Id)
    requires ReaderPast(s) && StorePast(s) && HandlerStep(s, t, h)
    ensures ReaderPast(t) && StorePast(t)
  {
  }

  lemma HandlerKeepsHandlersPast(s: State, t: State, h: Id)
    requires HandlersPast(s.past.at, s.handlers) && HandlerStep(s, t, h)
    ensures HandlersPast(t.past.at, t.handlers)
  {
    forall g: Id
      ensures if g in t.handlers then HandlerPast(t.past.at, g, t.handlers[g]) else Unstored(t.past.at, g)
    {
      assert if g in s.handlers then HandlerPast(s.past.at, g, s.handlers[g]) else Unstored(s.past.at, g);
    }
  }

  lemma HandlerKeepsRelease(s: State, t: State, h: Id)
    requires WriterInv(s) && ClockInv(s) && ReleaseInv(s) && HandlerStep(s, t, h)
    ensures ClockInv(t) && ReleaseInv(t)
  {
  }

  lemma AdmitKeepsOrder(s: State, t: State)
    requires Inv(s) && AdmitStep(s, t)
    ensures OrderInv(t)
  {
    match s.reader
    case Idle => RecordingKeepsOrder(s, t, Began(s.begun));
    case Checking(_, a) =>
      if !s.tainted {
        RecordingKeepsOrder(s, t, Admitted(a));
      }
    case _ =>
  }

  lemma UnaryKeepsOrder(s: State, t: State)
    requires Inv(s) && UnaryStep(s, t)
    ensures OrderInv(t)
  {
    if t.past != s.past {
      match s.reader
      case Dispatching(a) => RecordingKeepsOrder(s, t, Entered(a));
      case Handling(a) => RecordingKeepsOrder(s, t, UnaryStored(a));
      case AtEntry(a) => RecordingKeepsOrder(s, t, Released(a));
      case AfterDispatch(a) => RecordingKeepsOrder(s, t, Released(a));
      case Deferred(a) => RecordingKeepsOrder(s, t, Released(a));
    }
  }

  lemma OpenKeepsOrder(s: State, t: State)
    requires Inv(s) && OpenStep(s, t)
    ensures OrderInv(t)
  {
    if t.past != s.past {
      match s.reader
      case Opening(a) => RecordingKeepsOrder(s, t, Entered(a));
      case Opened(a) => RecordingKeepsOrder(s, t, Released(a));
    }
  }

  lemma HandlerKeepsOrder(s: State, t: State, h: Id)
    requires Inv(s) && HandlerStep(s, t, h)
    ensures OrderInv(t)
  {
    match s.handlers[h]
    case Locked => RecordingKeepsOrder(s, t, Stored(h));
    case Tainted => RecordingKeepsOrder(s, t, StoreReturned(h));
    case Recorded => RecordingKeepsOrder(s, t, TerminalQueued(h));
    case Queued => RecordingKeepsOrder(s, t, TerminateSignalled(h));
    case _ =>
  }

  lemma NextKeepsInv(s: State, t: State)
    requires Inv(s) && Next(s, t)
    ensures Inv(t)
  {
    if h :| HandlerStep(s, t, h) {
      HandlerKeepsGate(s, t, h);
      HandlerKeepsReaderPast(s, t, h);
      HandlerKeepsHandlersPast(s, t, h);
      HandlerKeepsRelease(s, t, h);
      HandlerKeepsOrder(s, t, h);
    } else if UnaryStep(s, t) {
      UnaryKeepsGate(s, t);
      UnaryKeepsReaderPast(s, t);
      UnaryKeepsHandlersPast(s, t);
      UnaryKeepsRelease(s, t);
      UnaryKeepsOrder(s, t);
    } else if OpenStep(s, t) {
      OpenKeepsGate(s, t);
      OpenKeepsReaderPast(s, t);
      OpenKeepsHandlersPast(s, t);
      OpenKeepsRelease(s, t);
      OpenKeepsOrder(s, t);
    } else if AdmitStep(s, t) {
      AdmitKeepsGate(s, t);
      AdmitKeepsReaderPast(s, t);
      AdmitKeepsHandlersPast(s, t);
      AdmitKeepsRelease(s, t);
      AdmitKeepsOrder(s, t);
    }
  }

  lemma {:induction false} Reachable(run: seq<State>, i: nat)
    requires IsRun(run) && i < |run|
    ensures Inv(run[i])
  {
    if i > 0 {
      Reachable(run, i - 1);
      NextKeepsInv(run[i - 1], run[i]);
    }
  }

  // ---------------------------------------------------------------- theorems

  /** No handler is entered or launched for an admission that begins after a taint store
      has returned. */
  lemma NoEntryFromALaterAdmission(run: seq<State>, n: nat, h: Id, a: Id)
    requires IsRun(run) && n < |run| && run[n].past.Before(StoreReturned(h), Began(a))
    ensures Entered(a) !in run[n].past.at
  {
    Reachable(run, n);
    var past := run[n].past;
    assert past.Before(Stored(h), StoreReturned(h)) by {
      assert Ordered(past, StoreReturned(h));
    }
    assert Entered(a) in past.at ==> Ordered(past, Entered(a));
    assert Admitted(a) in past.at ==> Ordered(past, Admitted(a));
  }

  /** Whatever is entered at all is entered before every store; and at a stream panic's
      store each admission that had passed the check has already been released. */
  lemma AdmissionsResolveBeforeTheStore(run: seq<State>, n: nat, h: Id, a: Id)
    requires IsRun(run) && n < |run| && Stored(h) in run[n].past.at
    ensures Entered(a) in run[n].past.at ==> run[n].past.Before(Entered(a), Stored(h))
    ensures run[n].past.Before(Admitted(a), Stored(h)) ==> run[n].past.Before(Released(a), Stored(h))
  {
    Reachable(run, n);
    var past := run[n].past;
    assert Ordered(past, Stored(h));
    if Entered(a) in past.at {
      assert Ordered(past, Entered(a));
    }
  }

  /** The read side is taken over the check and the entry, dropped exactly once, and never
      held while the application handler runs or a reply is sent. */
  lemma ReadSideReleasedExactlyOnce(run: seq<State>, n: nat, a: Id)
    requires IsRun(run) && n < |run|
    ensures run[n].past.Releases(a) <= 1
    ensures Admitted(a) !in run[n].past.at ==> run[n].past.Releases(a) == 0
    ensures Admitted(a) in run[n].past.at && !Current(run[n].reader, a) ==> run[n].past.Releases(a) == 1
    ensures Entered(a) in run[n].past.at && Released(a) in run[n].past.at
            ==> run[n].past.Before(Admitted(a), Entered(a)) && run[n].past.Before(Entered(a), Released(a))
    ensures run[n].reader.Handling? || run[n].reader.Sending? || run[n].reader.Idle? || run[n].reader.Stopped?
            ==> run[n].readers == 0
  {
    Reachable(run, n);
    if Entered(a) in run[n].past.at {
      assert Ordered(run[n].past, Entered(a));
    }
  }

  /** The peer can see a panic terminal, and the supervisor its signal, only once the taint
      store has returned. */
  lemma TaintPrecedesTheTerminal(run: seq<State>, n: nat, h: Id)
    requires IsRun(run) && n < |run|
    ensures TerminalQueued(h) in run[n].past.at ==>
              && run[n].past.Before(Stored(h), TerminalQueued(h))
              && run[n].past.Before(StoreReturned(h), TerminalQueued(h))
    ensures TerminateSignalled(h) in run[n].past.at ==> run[n].past.Before(TerminalQueued(h), TerminateSignalled(h))
    ensures Stored(h) in run[n].past.at ==> run[n].tainted
  {
    Reachable(run, n);
    var past := run[n].past;
    if TerminalQueued(h) in past.at {
      assert Ordered(past, TerminalQueued(h)) && Ordered(past, StoreReturned(h));
    }
    if TerminateSignalled(h) in past.at {
      assert Ordered(past, TerminateSignalled(h));
    }
  }
}

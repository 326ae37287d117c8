/**
  One plugin's retained health record. Lifecycle transitions and heartbeat hooks arrive
  from different goroutines in any order; the record keeps the transition with the
  greatest (Start attempt, sequence) key and a missed-heartbeat count stamped with the
  instance it belongs to.
*/
module HealthRecord {
  import opened Common

  /** (Start attempt, number within it), ordered lexicographically. */
  datatype Key = Key(origin: nat, number: nat)

  predicate Below(a: Key, b: Key) {
    a.origin < b.origin || (a.origin == b.origin && a.number < b.number)
  }

  datatype Event = Event(kind: nat, time: int, err: Option<string>)

  /** A transition with its ordering key and the instance generation it describes. */
  datatype Transition = Transition(event: Event, key: Key, gen: nat)

  datatype Input =
    | Happened(what: Transition)
    | Beat(instance: Key, ok: bool)       // a heartbeat hook of instance (attempt, generation)

  datatype Record = Record(shown: Event, last: Key, gen: nat, rev: nat, hook: Key, missed: nat)

  const BLANK := Record(Event(0, 0, None), Key(0, 0), 0, 0, Key(0, 0), 0)

  /** The record after a transition, and the revision it was given: 0 when discarded. */
  function Applied(r: Record, w: Transition): (Record, nat) {
    if !Below(r.last, w.key) then (r, 0)
    else (r.(shown := w.event, last := w.key, gen := w.gen, rev := r.rev + 1), r.rev + 1)
  }

  function Beaten(r: Record, instance: Key, ok: bool): Record {
    if Below(instance, r.hook) then r
    else r.(hook := instance, missed := if ok then 0 else r.missed + 1)
  }

  function Taken(r: Record, x: Input): Record {
    match x
    case Happened(w) => Applied(r, w).0
    case Beat(instance, ok) => Beaten(r, instance, ok)
  }

  function Replay(history: seq<Input>): Record {
    if history == [] then BLANK else Taken(Replay(history[..|history| - 1]), history[|history| - 1])
  }

  /** What Health reports as missed. */
  function Reported(r: Record): nat {
    if Below(r.hook, Key(r.last.origin, r.gen)) then 0 else r.missed
  }

  /** The record as the source holds it: one object, every method one critical section. */
  class Health {
    var shown: Event
    var lastOrigin: nat
    var lastSeq: nat
    var lastEventGen: nat
    var rev: nat
    var hookOrigin: nat
    var hookGen: nat
    var missed: nat
    var origin: nat

    ghost function View(): Record
      reads this
    {
      Record(shown, Key(lastOrigin, lastSeq), lastEventGen, rev, Key(hookOrigin, hookGen), missed)
    }

    constructor ()
      ensures View() == BLANK && origin == 0
    {
      shown := Event(0, 0, None);
      lastOrigin, lastSeq, lastEventGen, rev := 0, 0, 0, 0;
      hookOrigin, hookGen, missed, origin := 0, 0, 0, 0;
    }

    method NextOrigin() returns (o: nat)
      modifies this`origin
      ensures o == origin == old(origin) + 1
    {
      origin := origin + 1;
      o := origin;
    }

    method RecordEvent(e: Event, o: nat, number: nat, gen: nat) returns (r: nat)
      modifies this
      ensures (View(), r) == Applied(old(View()), Transition(e, Key(o, number), gen)) && origin == old(origin)
    {
      if o < lastOrigin || (o == lastOrigin && number <= lastSeq) {
        return 0;
      }
      shown, lastOrigin, lastSeq, lastEventGen := e, o, number, gen;
      rev := rev + 1;
      return rev;
    }

    method RecordHeartbeat(o: nat, gen: nat, ok: bool)
      modifies this
      ensures View() == Beaten(old(View()), Key(o, gen), ok) && origin == old(origin)
    {
      if o < hookOrigin || (o == hookOrigin && gen < hookGen) {
        return;
      }
      hookOrigin, hookGen := o, gen;
      missed := if ok then 0 else missed + 1;
    }

    method CoherentMissed() returns (n: nat)
      ensures n == Reported(View())
    {
      if lastOrigin > hookOrigin || (lastOrigin == hookOrigin && lastEventGen > hookGen) {
        return 0;
      }
      return missed;
    }
  }

  // ---------------------------------------------------------------- the retained state

  /** The revision the i-th input of the history was given. */
  function Revision(history: seq<Input>, i: nat): nat
    requires i < |history|
  {
    if history[i].Happened? then Applied(Replay(history[..i]), history[i].what).1 else 0
  }

  lemma ReplayNext(history: seq<Input>, i: nat)
    requires i < |history|
    ensures Replay(history[..i + 1]) == Taken(Replay(history[..i]), history[i])
  {
    assert history[..i + 1][..i] == history[..i];
  }

  /** The key and the revision of the record only ever grow, and only together. */
  lemma {:induction false} RecordAscends(history: seq<Input>, i: nat, j: nat)
    requires i <= j <= |history|
    ensures var a, b := Replay(history[..i]), Replay(history[..j]);
      && a.rev <= b.rev && (a.rev < b.rev ==> Below(a.last, b.last))
      && (a.rev == b.rev ==> a.shown == b.shown && a.last == b.last && a.gen == b.gen)
  {
    if i < j {
      RecordAscends(history, i, j - 1);
      ReplayNext(history, j - 1);
    }
  }

  lemma RevisionIsTheRecords(history: seq<Input>, i: nat)
    requires i < |history| && Revision(history, i) != 0
    ensures var a := Replay(history[..i + 1]); var w := history[i].what;
      && a.rev == Revision(history, i) == Replay(history[..i]).rev + 1
      && a.last == w.key && a.shown == w.event && a.gen == w.gen
  {
    ReplayNext(history, i);
  }

  function Retained(r: Record): Transition {
    Transition(r.shown, r.last, r.gen)
  }

  /** w arrived, and nothing that arrived has a greater key. */
  predicate Greatest(history: seq<Input>, w: Transition) {
    && Happened(w) in history
    && forall i :: 0 <= i < |history| && history[i].Happened? ==> !Below(w.key, history[i].what.key)
  }

  predicate UniqueKeys(history: seq<Input>) {
    forall i, j :: 0 <= i < j < |history| && history[i].Happened? && history[j].Happened? ==>
      history[i].what.key != history[j].what.key
  }

  /** Keys start at sequence 1: an attempt's bus and the synthetic pair both do. */
  predicate Numbered(history: seq<Input>) {
    forall i :: 0 <= i < |history| && history[i].Happened? ==> history[i].what.key.number > 0
  }

  /** Whatever the arrival order, the record retains the transition with the greatest key,
      or is blank when none arrived. */
  lemma {:induction false} RetainedIsGreatest(history: seq<Input>)
    requires Numbered(history)
    ensures if forall i :: 0 <= i < |history| ==> history[i].Beat?
            then Retained(Replay(history)) == Retained(BLANK) else Greatest(history, Retained(Replay(history)))
  {
    if history != [] {
      var n := |history| - 1;
      RetainedIsGreatest(history[..n]);
      assert history == history[..n] + [history[n]];
      assert forall i :: 0 <= i < n ==> history[..n][i] == history[i];
    }
  }

  lemma GreatestIsUnique(history: seq<Input>, w: Transition, v: Transition)
    requires UniqueKeys(history) && Greatest(history, w) && Greatest(history, v)
    ensures w == v
  {
    var i :| 0 <= i < |history| && history[i] == Happened(w);
    var j :| 0 <= j < |history| && history[j] == Happened(v);
    assert w.key == v.key;
    assert i == j;
  }

  lemma SameMembers(one: seq<Input>, two: seq<Input>, x: Input)
    requires multiset(one) == multiset(two)
    ensures x in one <==> x in two
  {
    assert x in one <==> x in multiset(one);
    assert x in two <==> x in multiset(two);
  }

  lemma GreatestOfBoth(one: seq<Input>, two: seq<Input>, w: Transition)
    requires multiset(one) == multiset(two) && Greatest(two, w)
    ensures Greatest(one, w)
  {
    SameMembers(one, two, Happened(w));
    forall i | 0 <= i < |one| && one[i].Happened?
      ensures !Below(w.key, one[i].what.key)
    {
      SameMembers(one, two, one[i]);
      var j :| 0 <= j < |two| && two[j] == one[i];
    }
  }

  /** Two histories with the same inputs in different orders retain the same transition. */
  lemma OrderDoesNotMatter(one: seq<Input>, two: seq<Input>)
    requires multiset(one) == multiset(two) && UniqueKeys(one) && Numbered(one)
    ensures Retained(Replay(one)) == Retained(Replay(two))
  {
    forall j | 0 <= j < |two|
      ensures two[j] in one
    {
      SameMembers(one, two, two[j]);
    }
    RetainedIsGreatest(one);
    RetainedIsGreatest(two);
    if i :| 0 <= i < |one| && one[i].Happened? {
      SameMembers(one, two, one[i]);
      GreatestOfBoth(one, two, Retained(Replay(two)));
      GreatestIsUnique(one, Retained(Replay(one)), Retained(Replay(two)));
    }
  }

  // ---------------------------------------------------------------- revisions

  /** Revisions that were given are ordered as arrival and as the keys are. */
  lemma RevisionsFollowKeys(history: seq<Input>, i: nat, j: nat)
    requires i < j < |history| && Revision(history, i) != 0 && Revision(history, j) != 0
    ensures Revision(history, i) < Revision(history, j) && Below(history[i].what.key, history[j].what.key)
  {
    RevisionIsTheRecords(history, i);
    RevisionIsTheRecords(history, j);
    RecordAscends(history, i + 1, j);
    RecordAscends(history, i + 1, j + 1);
  }

  /** Every number from 1 to the record's revision was given to exactly one arrival. */
  lemma {:induction false} RevisionsAreDense(history: seq<Input>, v: nat) returns (i: nat)
    requires 0 < v <= Replay(history).rev
    ensures i < |history| && Revision(history, i) == v
    ensures forall j :: 0 <= j < |history| && Revision(history, j) == v ==> j == i
  {
    var n := |history| - 1;
    assert history[..n + 1] == history;
    ReplayNext(history, n);
    if v <= Replay(history[..n]).rev {
      i := RevisionsAreDense(history[..n], v);
      assert history[..n][..i] == history[..i];
    } else {
      i := n;
    }
    forall j | 0 <= j < |history| && Revision(history, j) == v
      ensures j == i
    {
      if j < i {
        RevisionsFollowKeys(history, j, i);
      } else if i < j {
        RevisionsFollowKeys(history, i, j);
      }
    }
  }

  // ---------------------------------------------------------------- consumers

  /** An event on the public stream, or a snapshot: what is shown and its revision. */
  datatype Sight = Sight(shown: Event, revision: nat)

  function Snapshot(history: seq<Input>): Sight {
    Sight(Replay(history).shown, Replay(history).rev)
  }

  /** The documented fold: ignore anything not strictly greater. */
  function Fold(seed: Sight, delivered: seq<Sight>): Sight {
    if delivered == [] then seed
    else
      var v := Fold(seed, delivered[..|delivered| - 1]);
      var d := delivered[|delivered| - 1];
      if d.revision > v.revision then d else v
  }

  predicate Published(history: seq<Input>, d: Sight) {
    exists i :: 0 <= i < |history| && history[i].Happened? && d == Sight(history[i].what.event, Revision(history, i))
  }

  lemma {:induction false} FoldEndsAtTheHighest(seed: Sight, delivered: seq<Sight>)
    ensures var v := Fold(seed, delivered);
      && seed.revision <= v.revision
      && (forall k :: 0 <= k < |delivered| ==> delivered[k].revision <= v.revision)
      && (v == seed || v in delivered)
  {
    if delivered != [] {
      var n := |delivered| - 1;
      FoldEndsAtTheHighest(seed, delivered[..n]);
      assert delivered == delivered[..n] + [delivered[n]];
    }
  }

  /** A consumer that seeds from any snapshot and then folds any selection of the published
      events, reordered, repeated or dropped, ends showing exactly what the record showed at
      the highest revision it was given; when that is the newest, it shows the present. */
  lemma ConsumerSeesTheNewestDelivered(history: seq<Input>, m: nat, delivered: seq<Sight>)
    requires m <= |history| && forall k :: 0 <= k < |delivered| ==> Published(history, delivered[k])
    ensures var v := Fold(Snapshot(history[..m]), delivered);
      && (exists j :: 0 <= j <= |history| && v == Snapshot(history[..j]))
      && Snapshot(history[..m]).revision <= v.revision <= Replay(history).rev
      && (forall k :: 0 <= k < |delivered| ==> delivered[k].revision <= v.revision)
      && (v.revision == Replay(history).rev ==> v == Snapshot(history))
  {
    var seed := Snapshot(history[..m]);
    var v := Fold(seed, delivered);
    FoldEndsAtTheHighest(seed, delivered);
    assert history[..|history|] == history;
    var j := m;
    if v.revision == seed.revision {
      FoldIgnoresDiscarded(seed, delivered);
    } else {
      assert Published(history, v);
      var i :| 0 <= i < |history| && history[i].Happened? && v == Sight(history[i].what.event, Revision(history, i));
      RevisionIsTheRecords(history, i);
      j := i + 1;
    }
    assert v == Snapshot(history[..j]);
    RecordAscends(history, j, |history|);
  }

  lemma {:induction false} FoldIgnoresDiscarded(seed: Sight, delivered: seq<Sight>)
    requires Fold(seed, delivered).revision == seed.revision
    ensures Fold(seed, delivered) == seed
  {
    if delivered != [] {
      FoldEndsAtTheHighest(seed, delivered[..|delivered| - 1]);
      FoldIgnoresDiscarded(seed, delivered[..|delivered| - 1]);
    }
  }

  // ---------------------------------------------------------------- missed heartbeats

  /** The misses of one instance since its last good beat, counted from the history. */
  function OwnRun(history: seq<Input>, instance: Key): nat {
    if history == [] then 0
    else
      var x := history[|history| - 1];
      var before := history[..|history| - 1];
      if x.Beat? && x.instance == instance then (if x.ok then 0 else OwnRun(before, instance) + 1)
      else OwnRun(before, instance)
  }

  /** The i-th input is the first beat the record takes from a newer instance. */
  predicate TakesOver(history: seq<Input>, i: nat)
    requires i < |history|
  {
    history[i].Beat? && Below(Replay(history[..i]).hook, history[i].instance)
  }

  /** At every moment the stored count is the run of the instance it is stamped with. */
  ghost predicate CountsOwnRun(history: seq<Input>) {
    forall n :: 0 <= n <= |history| ==> Replay(history[..n]).missed == OwnRun(history[..n], Replay(history[..n]).hook)
  }

  /** Every instance's first beat is good, or finds a count of zero. */
  ghost predicate CleanTakeovers(history: seq<Input>) {
    forall i :: 0 <= i < |history| && TakesOver(history, i) ==> history[i].ok || Replay(history[..i]).missed == 0
  }

  lemma {:induction false} HookIsGreatest(history: seq<Input>)
    ensures forall i :: 0 <= i < |history| && history[i].Beat? ==> !Below(Replay(history).hook, history[i].instance)
  {
    if history != [] {
      var n := |history| - 1;
      HookIsGreatest(history[..n]);
      assert forall i :: 0 <= i < n ==> history[..n][i] == history[i];
    }
  }

  lemma {:induction false} NewInstanceHasNoRun(history: seq<Input>, instance: Key)
    requires forall i :: 0 <= i < |history| && history[i].Beat? ==> history[i].instance != instance
    ensures OwnRun(history, instance) == 0
  {
    if history != [] {
      NewInstanceHasNoRun(history[..|history| - 1], instance);
    }
  }

  lemma StepOfTheRun(history: seq<Input>, n: nat)
    requires n < |history|
    ensures OwnRun(history[..n + 1], Replay(history[..n + 1]).hook) ==
            var x := history[n]; var instance := Replay(history[..n + 1]).hook;
            if x.Beat? && x.instance == instance then (if x.ok then 0 else OwnRun(history[..n], instance) + 1)
            else OwnRun(history[..n], instance)
    ensures TakesOver(history, n) ==> OwnRun(history[..n], history[n].instance) == 0
  {
    assert history[..n + 1][..n] == history[..n];
    HookIsGreatest(history[..n]);
    if TakesOver(history, n) {
      NewInstanceHasNoRun(history[..n], history[n].instance);
    }
  }

  lemma {:induction false} CleanTakeoversCount(history: seq<Input>, n: nat)
    requires CleanTakeovers(history) && n <= |history|
    ensures Replay(history[..n]).missed == OwnRun(history[..n], Replay(history[..n]).hook)
  {
    if n > 0 {
      CleanTakeoversCount(history, n - 1);
      ReplayNext(history, n - 1);
      StepOfTheRun(history, n - 1);
    }
  }

  /** The stored count is always one instance's own run exactly when every instance that
      takes the record over does so with a good beat or over a count of zero. */
  lemma CountIsCoherentExactlyWhenTakeoversAreClean(history: seq<Input>)
    ensures CountsOwnRun(history) <==> CleanTakeovers(history)
  {
    if CleanTakeovers(history) {
      forall n | 0 <= n <= |history|
        ensures Replay(history[..n]).missed == OwnRun(history[..n], Replay(history[..n]).hook)
      {
        CleanTakeoversCount(history, n);
      }
    }
    if CountsOwnRun(history) {
      forall i | 0 <= i < |history| && TakesOver(history, i)
        ensures history[i].ok || Replay(history[..i]).missed == 0
      {
        ReplayNext(history, i);
        StepOfTheRun(history, i);
        assert Replay(history[..i + 1]).missed == OwnRun(history[..i + 1], Replay(history[..i + 1]).hook);
      }
    }
  }

  /** So a reported count belongs to the instance the state describes or a newer one, and
      is that instance's own. */
  lemma ReportedCountIsNeverAnOlderInstances(history: seq<Input>)
    requires CleanTakeovers(history)
    ensures var r := Replay(history);
      Reported(r) > 0 ==> !Below(r.hook, Key(r.last.origin, r.gen)) && Reported(r) == OwnRun(history, r.hook)
  {
    CleanTakeoversCount(history, |history|);
    assert history[..|history|] == history;
  }

  /** The newer of the instance the state describes and the one the count is stamped with. */
  function Newest(r: Record): Key {
    if Below(r.hook, Key(r.last.origin, r.gen)) then Key(r.last.origin, r.gen) else r.hook
  }

  /** With clean takeovers the report is exactly the run of the newest instance known: its own
      misses when its beats have begun, and none before. */
  lemma ReportIsTheNewestInstancesRun(history: seq<Input>)
    requires CleanTakeovers(history)
    ensures Reported(Replay(history)) == OwnRun(history, Newest(Replay(history)))
  {
    var r := Replay(history);
    CleanTakeoversCount(history, |history|);
    assert history[..|history|] == history;
    if Below(r.hook, Key(r.last.origin, r.gen)) {
      HookIsGreatest(history);
      NewInstanceHasNoRun(history, Key(r.last.origin, r.gen));
    }
  }

  /** A first beat that is a miss inherits its predecessor's count. */
  lemma MissedFirstBeatInherits()
    ensures exists history: seq<Input> ::
      !CleanTakeovers(history) && Reported(Replay(history)) == 2 && OwnRun(history, Replay(history).hook) == 1
  {
    var b1, b2, b3 := Beat(Key(1, 1), true), Beat(Key(1, 1), false), Beat(Key(1, 2), false);
    var history := [b1, b2, b3];
    assert history[..3] == history && history[..2] == [b1, b2] && history[..1] == [b1] && history[..0] == [];
    ReplayNext(history, 0);
    ReplayNext(history, 1);
    ReplayNext(history, 2);
    StepOfTheRun(history, 2);
    assert TakesOver(history, 2);
  }
}

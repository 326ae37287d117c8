/**
  The deadline arithmetic of Transaction.drain and why it keeps a DrainAck and the host's
  rollback apart: a timed system of one Drain exchange over one clock, in nanoseconds.
*/
module DrainDeadline {
  import opened Common

  const HOST_MARGIN: int := 1_000_000_000

  datatype Plan = NotSent | Send(transmitted: int, hostWait: int)

  /** The two deadlines drain computes from the clock, its budget and the caller's deadline. */
  function DrainPlan(now: int, drainAck: int, caller: Option<int>): Plan {
    var configured := now + drainAck;
    var hostWait := if caller.Some? && caller.value < configured then caller.value else configured;
    var budget := hostWait - now;
    if budget < 2 then NotSent
    else
      var margin := if HOST_MARGIN >= budget then budget / 2 else HOST_MARGIN;
      Send(hostWait - margin, hostWait)
  }

  /** Either there is no room for a drain, or the plugin's deadline lies strictly between
      now and the moment the host stops waiting, which is the earlier of its own budget and
      the caller's deadline; the full margin is kept between the two, or half of what there is. */
  lemma PlanOrdersTheDeadlines(now: int, drainAck: int, caller: Option<int>)
    ensures DrainPlan(now, drainAck, caller).NotSent? <==>
              drainAck < 2 || (caller.Some? && caller.value - now < 2)
    ensures DrainPlan(now, drainAck, caller).Send? ==>
      var p := DrainPlan(now, drainAck, caller);
      && now < p.transmitted < p.hostWait <= now + drainAck
      && (caller.Some? ==> p.hostWait <= caller.value)
      && (p.hostWait == now + drainAck || caller == Some(p.hostWait))
      && (p.hostWait - now > HOST_MARGIN ==> p.hostWait - p.transmitted == HOST_MARGIN)
      && (p.hostWait - now <= HOST_MARGIN ==> 0 <= (p.transmitted - now) - (p.hostWait - p.transmitted) <= 1)
  {
  }

  // ---------------------------------------------------------------- one exchange in time

  datatype HostSide = Waiting | Heard | GaveUp
  datatype PluginSide = Draining | Acked | Missed

  /** `flight` is the send time of an ack on its way; `queued` an ack in the host's socket. */
  datatype Exchange = Exchange(
    clock: int, host: HostSide, plugin: PluginSide, flight: Option<int>, queued: bool)

  predicate Start(x: Exchange, now: int) {
    x == Exchange(now, Waiting, Draining, None, false)
  }

  /** Time passes, but not past the latest delivery of an ack in flight. */
  predicate Tick(x: Exchange, y: Exchange, latency: nat) {
    y == x.(clock := y.clock) && y.clock > x.clock && (x.flight.Some? ==> y.clock <= x.flight.value + latency)
  }

  /** Freeze, quiescence and the send of DrainAck are bounded by the transmitted deadline;
      past it the plugin only waits for Resume. */
  predicate PluginStep(x: Exchange, y: Exchange, p: Plan)
    requires p.Send?
  {
    || (x.plugin == Draining && x.clock <= p.transmitted && y == x.(plugin := Acked, flight := Some(x.clock)))
    || (x.plugin == Draining && x.clock >= p.transmitted && y == x.(plugin := Missed))
  }

  predicate Deliver(x: Exchange, y: Exchange) {
    x.flight.Some? && y == x.(flight := None, queued := true)
  }

  /** The receive returns a queued ack, and times out only on an empty queue. */
  predicate HostSideStep(x: Exchange, y: Exchange, p: Plan)
    requires p.Send?
  {
    || (x.host == Waiting && x.queued && y == x.(host := Heard, queued := false))
    || (x.host == Waiting && !x.queued && x.clock >= p.hostWait && y == x.(host := GaveUp))
  }

  predicate ExchangeStep(x: Exchange, y: Exchange, p: Plan, latency: nat)
    requires p.Send?
  {
    Tick(x, y, latency) || PluginStep(x, y, p) || Deliver(x, y) || HostSideStep(x, y, p)
  }

  predicate ExchangeRun(run: seq<Exchange>, now: int, p: Plan, latency: nat)
    requires p.Send?
  {
    && |run| > 0 && Start(run[0], now)
    && forall i :: 0 <= i < |run| - 1 ==> ExchangeStep(run[i], run[i + 1], p, latency)
  }

  /** A DrainAck the rollback could read where it expects ResumeAck. */
  predicate LateAck(x: Exchange) {
    x.host == GaveUp && (x.flight.Some? || x.queued || x.plugin == Acked)
  }

  predicate TimedInv(x: Exchange, p: Plan, latency: nat)
    requires p.Send?
  {
    && (x.flight.Some? ==> x.plugin == Acked && x.flight.value <= p.transmitted && x.clock <= x.flight.value + latency)
    && (x.queued || x.host == Heard ==> x.plugin == Acked)
    && (x.plugin == Acked ==> x.flight.Some? || x.queued || x.host == Heard)
    && (x.host == GaveUp ==> x.clock >= p.hostWait && x.flight.None? && !x.queued && x.plugin != Acked)
  }

  lemma {:induction false} TimedInvHolds(run: seq<Exchange>, now: int, p: Plan, latency: nat, i: nat)
    requires p.Send? && latency < p.hostWait - p.transmitted && ExchangeRun(run, now, p, latency) && i < |run|
    ensures TimedInv(run[i], p, latency)
  {
    if i > 0 {
      TimedInvHolds(run, now, p, latency, i - 1);
      assert ExchangeStep(run[i - 1], run[i], p, latency);
    }
  }

  ghost predicate AckAlwaysHeard(now: int, p: Plan, latency: nat)
    requires p.Send?
  {
    forall run: seq<Exchange>, i: nat :: ExchangeRun(run, now, p, latency) && i < |run| ==> !LateAck(run[i])
  }

  /** With the planned deadlines, a plugin that acks is always heard before the host gives
      up exactly when delivery is faster than the margin. */
  lemma AcksAreHeardExactlyWithinTheMargin(now: int, drainAck: int, caller: Option<int>, latency: nat)
    requires DrainPlan(now, drainAck, caller).Send?
    ensures var p := DrainPlan(now, drainAck, caller);
      AckAlwaysHeard(now, p, latency) <==> latency < p.hostWait - p.transmitted
  {
    var p := DrainPlan(now, drainAck, caller);
    if latency < p.hostWait - p.transmitted {
      forall run: seq<Exchange>, i: nat | ExchangeRun(run, now, p, latency) && i < |run|
        ensures !LateAck(run[i])
      {
        TimedInvHolds(run, now, p, latency, i);
      }
    } else {
      var x0 := Exchange(now, Waiting, Draining, None, false);
      var x1 := x0.(clock := p.transmitted);
      var x2 := x1.(plugin := Acked, flight := Some(p.transmitted));
      var x3 := x2.(clock := p.hostWait);
      var x4 := x3.(host := GaveUp);
      var run := [x0, x1, x2, x3, x4];
      assert ExchangeRun(run, now, p, latency);
      assert LateAck(run[4]);
    }
  }
}

/**
  What an error from a unary call says about the handler. Callers, the pending-call table,
  the transport, the plugin and the connection's teardown interleave freely over any number
  of calls; a call's caller may read its error and ask whether a retry is safe.
*/
module CallOutcome {
  import opened Common

  // ---------------------------------------------------------------- errors

  /** Everything errors.Is is asked about on a call's path. */
  datatype Mark =
    | OutcomeUnknown | PluginUnavailable | Drained | Backpressure | RequestDeclined
    | DeadlineExceeded | Canceled | PayloadTooLarge | ServiceNotFound | MethodNotFound
    | FillFailed | TransportBackpressure | TransportTooLarge | UnimplementedKind
    | ContextCanceled | ContextDeadline
    | CanceledLocally | RuntimeDeadline

  /** An error as its chain is seen: the sentinels it wraps, and the Dispatched flag of the
      first plugin-crash error in it. */
  datatype Err = Err(marks: set<Mark>, crash: Option<bool>)

  function Bare(m: Mark): Err {
    Err({m}, None)
  }

  const PLAIN := Err({}, None)

  /** Wrapping two errors, the first one first. */
  function Both(a: Err, b: Err): Err {
    Err(a.marks + b.marks, if a.crash.Some? then a.crash else b.crash)
  }

  predicate IsRetryable(e: Err) {
    if OutcomeUnknown in e.marks then false
    else if e.crash.Some? then !e.crash.value
    else PluginUnavailable in e.marks || Drained in e.marks || Backpressure in e.marks || RequestDeclined in e.marks
  }

  predicate NeverPublished(e: Err) {
    UnimplementedKind in e.marks || TransportTooLarge in e.marks || TransportBackpressure in e.marks
  }

  predicate IsContextErr(e: Err) {
    ContextCanceled in e.marks || ContextDeadline in e.marks
  }

  function TranslateCtxErr(e: Err): Err {
    if ContextDeadline in e.marks then Bare(DeadlineExceeded) else Bare(Canceled)
  }

  function TranslateSendFailure(e: Err): Err {
    if IsContextErr(e) then TranslateCtxErr(e)
    else if FillFailed in e.marks then e
    else if TransportBackpressure in e.marks then Both(e, Bare(Backpressure))
    else if TransportTooLarge in e.marks then Both(e, Bare(PayloadTooLarge))
    else e
  }

  // ---------------------------------------------------------------- statuses

  const SERVICE_NOT_FOUND := 0xFFFF_FF01
  const METHOD_NOT_FOUND := 0xFFFF_FF02
  const INTERNAL := 0xFFFF_FF03
  const HANDLER_PANIC := 0xFFFF_FF08
  const REQUEST_DECLINED := 0xFFFF_FF09
  const RESERVED_MIN := SERVICE_NOT_FOUND

  /** The wire code of a status a handler returned. */
  function HandlerCode(code: nat): nat {
    if code >= RESERVED_MIN then INTERNAL else code
  }

  // ---------------------------------------------------------------- one call

  datatype Result = Bytes | Message(present: bool) | Fault(err: Err) | Status(code: nat)

  datatype Entry = Unregistered | Submitted | Published | Terminal(result: Result)

  datatype Caller = Starting | Registered | Sending(fill: bool) | Waiting | Succeeded | Returned(err: Err)

  /** Where the request frame is. */
  datatype Request = Unsent | Offered | Withdrawn | InFlight | Taken | Running | Settled

  datatype Reply = Response | StatusReply(code: nat)

  datatype Call = Call(entry: Entry, caller: Caller, request: Request, runs: nat, replies: set<Reply>)

  /** The errors the codec may return for a response, and the protobuf runtime for a status
      detail. */
  datatype Decoders = Decoders(response: iset<Err>, detail: iset<Err>)

  const FRESH := Call(Unregistered, Starting, Unsent, 0, {})

  /** The table's compare-and-swap into a terminal: only the first one takes. */
  function Terminate(entry: Entry, result: Result, fromSubmitted: bool): Entry {
    if entry.Published? || (fromSubmitted && entry.Submitted?) then Terminal(result) else entry
  }

  // The caller.

  /** Why a call is turned away before it is submitted. */
  datatype Refusal = RoutingGone | AdmissionClosed | ContextEnded(err: Err) | NotEncoded(err: Err)

  function RefusalErr(why: Refusal): Err {
    match why
    case RoutingGone => Bare(PluginUnavailable)
    case AdmissionClosed => Bare(Drained)
    case ContextEnded(e) => TranslateCtxErr(e)
    case NotEncoded(e) => e
  }

  predicate Refuse(c: Call, d: Call, why: Refusal) {
    c.caller == Starting && d == c.(caller := Returned(RefusalErr(why)))
  }

  predicate Submit(c: Call, d: Call) {
    c.caller == Starting && d == c.(caller := Registered, entry := Submitted)
  }

  /** The publication compare-and-swap; losing it means no frame is emitted. */
  predicate Publish(c: Call, d: Call, fill: bool) {
    && c.caller == Registered
    && d == if c.entry.Submitted? then c.(entry := Published, caller := Sending(fill), request := Offered)
            else c.(caller := Waiting)
  }

  predicate SendReturnsNil(c: Call, d: Call) {
    c.caller.Sending? && d == c.(caller := Waiting)
  }

  /** An error that proves the frame never left: the transport still holds it. */
  predicate SendProvedUnpublished(c: Call, d: Call, e: Err) {
    && c.caller.Sending?
    && c.request.Offered?
    && ((c.caller.fill && (FillFailed in e.marks || IsContextErr(e))) || NeverPublished(e))
    && d == c.(
      entry := Terminate(c.entry, Fault(UnpublishedCause(c.caller.fill, e)), true),
      caller := Returned(TranslateSendFailure(e)),
      request := Withdrawn)
  }

  function UnpublishedCause(fill: bool, e: Err): Err {
    if fill && FillFailed in e.marks then e
    else if fill && ContextDeadline in e.marks then Bare(RuntimeDeadline)
    else if fill && ContextCanceled in e.marks then Bare(CanceledLocally)
    else e
  }

  /** Any other send error: the frame may have left, or may still leave. */
  predicate SendUnclear(c: Call, d: Call, e: Err) {
    && c.caller.Sending?
    && !(c.caller.fill && (FillFailed in e.marks || IsContextErr(e))) && !NeverPublished(e)
    && d == c.(entry := Terminate(c.entry, Fault(Both(e, Bare(OutcomeUnknown))), false), caller := Waiting)
  }

  predicate DeadlineFires(c: Call, d: Call) {
    c.caller == Waiting && d == c.(entry := Terminate(c.entry, Fault(Bare(RuntimeDeadline)), true))
  }

  predicate Abandon(c: Call, d: Call, e: Err) {
    && c.caller == Waiting
    && IsContextErr(e)
    && d == c.(
      entry := Terminate(c.entry, Fault(Bare(CanceledLocally)), true),
      caller := Returned(TranslateCtxErr(e)))
  }

  function FaultSeen(e: Err): Err {
    if CanceledLocally in e.marks then Bare(Canceled)
    else if RuntimeDeadline in e.marks then Bare(DeadlineExceeded)
    else e
  }

  /** What the caller may be handed for a status; an application status decodes its details,
      which may fail. */
  predicate StatusSeen(env: Decoders, code: nat, e: Err) {
    if code == SERVICE_NOT_FOUND then e == Bare(ServiceNotFound)
    else if code == METHOD_NOT_FOUND then e == Bare(MethodNotFound)
    else if code == INTERNAL || code == HANDLER_PANIC then e == PLAIN
    else if code == REQUEST_DECLINED then e == Bare(RequestDeclined)
    else e == PLAIN || e in env.detail
  }

  /** How a delivered result reaches the caller. */
  predicate Seen(env: Decoders, r: Result, out: Caller) {
    match r
    case Fault(e) => out == Returned(FaultSeen(e))
    case Status(code) => out.Returned? && StatusSeen(env, code, out.err)
    case Message(present) => out == if present then Succeeded else Returned(Bare(OutcomeUnknown))
    case Bytes => out == Succeeded || (out.Returned? && out.err in env.response)
  }

  predicate Collect(env: Decoders, c: Call, d: Call, out: Caller) {
    c.caller == Waiting && c.entry.Terminal? && Seen(env, c.entry.result, out) && d == c.(caller := out)
  }

  // The transport, the plugin and the read loop.

  predicate Transmit(c: Call, d: Call) {
    c.request == Offered && d == c.(request := InFlight)
  }

  /** The plugin's receive path could not take the request and answers that. */
  predicate Decline(c: Call, d: Call) {
    c.request == InFlight && d == c.(request := Settled, replies := c.replies + {StatusReply(REQUEST_DECLINED)})
  }

  predicate Take(c: Call, d: Call) {
    c.request == InFlight && d == c.(request := Taken)
  }

  /** No handler is entered: unknown service or method, or an undecodable request. */
  predicate AnswerWithoutHandler(c: Call, d: Call, code: nat) {
    && c.request == Taken
    && (code == SERVICE_NOT_FOUND || code == METHOD_NOT_FOUND || code == INTERNAL)
    && d == c.(request := Settled, replies := c.replies + {StatusReply(code)})
  }

  predicate EnterHandler(c: Call, d: Call) {
    c.request == Taken && d == c.(request := Running, runs := c.runs + 1)
  }

  /** A response, a recovered panic, an internal fault, or a status the handler chose. */
  predicate HandlerReplies(c: Call, d: Call, reply: Reply, chosen: nat) {
    && c.request == Running
    && (reply == Response || reply == StatusReply(HANDLER_PANIC) || reply == StatusReply(INTERNAL)
        || reply == StatusReply(HandlerCode(chosen)))
    && d == c.(request := Settled, replies := c.replies + {reply})
  }

  /** Budget elapsed, session fenced, or the plugin is gone: nothing more comes of it. */
  predicate NoReply(c: Call, d: Call) {
    (c.request == InFlight || c.request == Taken || c.request == Running) && d == c.(request := Settled)
  }

  /** A reply frame reaches the read loop, which may also fail to take or decode it. */
  predicate Receive(c: Call, d: Call, reply: Reply, result: Result) {
    && reply in c.replies
    && (|| (result.Fault? && OutcomeUnknown in result.err.marks)
        || (reply == Response && (result == Bytes || result == Message(true)))
        || (reply.StatusReply? && result == Status(reply.code)))
    && d == c.(entry := Terminate(c.entry, result, false), replies := c.replies - {reply})
  }

  /** Teardown finds the call not yet published. */
  predicate FailSubmitted(c: Call, d: Call) {
    c.entry == Submitted && d == c.(entry := Terminal(Fault(Bare(PluginUnavailable))))
  }

  /** Teardown finds it published: the outcome is unknown, whatever else the cause wraps. */
  predicate FailPublished(c: Call, d: Call, e: Err) {
    c.entry == Published && OutcomeUnknown in e.marks && d == c.(entry := Terminal(Fault(e)))
  }

  ghost predicate CallerStep(env: Decoders, c: Call, d: Call) {
    || Submit(c, d)
    || SendReturnsNil(c, d)
    || DeadlineFires(c, d)
    || (exists fill :: Publish(c, d, fill))
    || (exists out :: Collect(env, c, d, out))
  }

  ghost predicate CallerErrs(c: Call, d: Call) {
    || (exists why :: Refuse(c, d, why))
    || (exists e :: SendProvedUnpublished(c, d, e) || SendUnclear(c, d, e) || Abandon(c, d, e))
  }

  predicate PluginStep(c: Call, d: Call) {
    || Transmit(c, d)
    || Decline(c, d)
    || Take(c, d)
    || EnterHandler(c, d)
    || NoReply(c, d)
  }

  ghost predicate ReplyStep(c: Call, d: Call) {
    || (exists code: nat :: AnswerWithoutHandler(c, d, code))
    || (exists reply, chosen: nat :: HandlerReplies(c, d, reply, chosen))
    || (exists reply, result :: Receive(c, d, reply, result))
  }

  ghost predicate TeardownStep(c: Call, d: Call) {
    FailSubmitted(c, d) || exists e :: FailPublished(c, d, e)
  }

  ghost predicate Step(env: Decoders, c: Call, d: Call) {
    CallerStep(env, c, d) || CallerErrs(c, d) || PluginStep(c, d) || ReplyStep(c, d) || TeardownStep(c, d)
  }

  // ---------------------------------------------------------------- runs

  /** Calls by ID. */
  type State = seq<Call>

  predicate Init(s: State) {
    forall c :: 0 <= c < |s| ==> s[c] == FRESH
  }

  ghost predicate Next(env: Decoders, s: State, t: State) {
    exists c :: 0 <= c < |s| && 0 <= c < |t| && t == s[c := t[c]] && Step(env, s[c], t[c])
  }

  ghost predicate IsRun(env: Decoders, run: seq<State>) {
    && |run| > 0
    && Init(run[0])
    && (forall i :: 0 <= i < |run| - 1 ==> Next(env, run[i], run[i + 1]))
  }

  /** No decoder hands back an error that reads as retryable. */
  ghost predicate HonestDecoders(env: Decoders) {
    (forall e :: e in env.response ==> !IsRetryable(e)) && (forall e :: e in env.detail ==> !IsRetryable(e))
  }

  // ---------------------------------------------------------------- invariant

  /** The request is out of reach of any handler, for good. */
  predicate Dead(c: Call) {
    c.runs == 0 && (c.request == Unsent || c.request == Withdrawn || c.request == Settled)
  }

  predicate Registration(c: Call) {
    && (c.entry == Unregistered ==> c.request == Unsent && (c.caller == Starting || c.caller.Returned?))
    && (c.entry == Submitted ==> c.request == Unsent && c.caller == Registered)
    && (c.caller == Starting ==> c.entry == Unregistered)
    && (c.caller.Returned? || c.caller == Succeeded ==> c.entry == Unregistered || c.entry.Terminal?)
    && (c.caller == Registered ==>
          c.request == Unsent && (c.entry == Submitted || (c.entry.Terminal? && c.entry.result.Fault?)))
    && (c.entry == Published ==> c.request != Unsent && c.request != Withdrawn)
    && (c.caller.Sending? ==> c.request != Unsent && c.request != Withdrawn)
  }

  predicate AtMostOneRun(c: Call) {
    && (c.request != Running && c.request != Settled ==> c.runs == 0 && c.replies == {})
    && (c.request == Running ==> c.replies == {})
    && c.runs <= 1
  }

  predicate DeclineInv(c: Call) {
    && (StatusReply(REQUEST_DECLINED) in c.replies ==> Dead(c))
    && (c.entry == Terminal(Status(REQUEST_DECLINED)) ==> Dead(c))
  }

  predicate FaultInv(c: Call) {
    c.entry.Terminal? && c.entry.result.Fault? && IsRetryable(FaultSeen(c.entry.result.err)) ==> Dead(c)
  }

  predicate HoldsRetryable(c: Call) {
    c.caller.Returned? && IsRetryable(c.caller.err)
  }

  predicate CallerInv(c: Call) {
    HoldsRetryable(c) ==> Dead(c)
  }

  predicate CallInv(c: Call) {
    Registration(c) && AtMostOneRun(c) && DeclineInv(c) && FaultInv(c)
  }

  lemma CallerStepKeeps(env: Decoders, c: Call, d: Call)
    requires CallInv(c) && CallerStep(env, c, d)
    ensures CallInv(d)
  {
  }

  lemma CallerErrsKeep(c: Call, d: Call)
    requires CallInv(c) && CallerErrs(c, d)
    ensures CallInv(d)
  {
  }

  lemma PluginStepKeeps(c: Call, d: Call)
    requires CallInv(c) && PluginStep(c, d)
    ensures CallInv(d)
  {
  }

  lemma ReplyStepKeeps(c: Call, d: Call)
    requires CallInv(c) && ReplyStep(c, d)
    ensures CallInv(d)
  {
  }

  lemma TeardownKeeps(c: Call, d: Call)
    requires CallInv(c) && TeardownStep(c, d)
    ensures CallInv(d)
  {
  }

  lemma StepKeepsCallInv(env: Decoders, c: Call, d: Call)
    requires CallInv(c) && Step(env, c, d)
    ensures CallInv(d)
  {
    if CallerStep(env, c, d) {
      CallerStepKeeps(env, c, d);
    } else if CallerErrs(c, d) {
      CallerErrsKeep(c, d);
    } else if PluginStep(c, d) {
      PluginStepKeeps(c, d);
    } else if ReplyStep(c, d) {
      ReplyStepKeeps(c, d);
    } else {
      TeardownKeeps(c, d);
    }
  }

  /** A dead request stays dead once the call has an outcome. */
  lemma DeadStaysDead(env: Decoders, c: Call, d: Call)
    requires CallInv(c) && Step(env, c, d) && Dead(c) && c.caller.Returned?
    ensures Dead(d)
  {
  }

  lemma StepKeepsCallerInv(env: Decoders, c: Call, d: Call)
    requires HonestDecoders(env) && CallInv(c) && CallerInv(c) && Step(env, c, d)
    ensures CallerInv(d)
  {
    if c.caller.Returned? {
      ReturnIsFinal(env, c, d);
      if IsRetryable(c.caller.err) {
        DeadStaysDead(env, c, d);
      }
    }
  }

  lemma ReturnIsFinal(env: Decoders, c: Call, d: Call)
    requires Step(env, c, d) && c.caller.Returned?
    ensures d.caller == c.caller
  {
  }

  lemma {:induction false} CallsStay(env: Decoders, run: seq<State>, i: nat, j: nat)
    requires IsRun(env, run) && i <= j < |run|
    ensures |run[i]| == |run[j]|
    decreases j
  {
    if i < j {
      CallsStay(env, run, i, j - 1);
      assert Next(env, run[j - 1], run[j - 1 + 1]);
    }
  }

  /** One call across one step of the whole system: its own step, or nothing. */
  lemma CallAcross(env: Decoders, run: seq<State>, i: nat, c: nat)
    requires IsRun(env, run) && i + 1 < |run| && c < |run[i]|
    ensures |run[i + 1]| == |run[i]|
    ensures run[i + 1][c] == run[i][c] || Step(env, run[i][c], run[i + 1][c])
  {
    assert Next(env, run[i], run[i + 1]);
  }

  lemma StepKeepsBoth(env: Decoders, c: Call, d: Call)
    requires CallInv(c) && (HonestDecoders(env) ==> CallerInv(c)) && (d == c || Step(env, c, d))
    ensures CallInv(d) && (HonestDecoders(env) ==> CallerInv(d))
  {
    if c != d {
      StepKeepsCallInv(env, c, d);
      if HonestDecoders(env) {
        StepKeepsCallerInv(env, c, d);
      }
    }
  }

  lemma {:induction false} Reachable(env: Decoders, run: seq<State>, i: nat, c: nat)
    requires IsRun(env, run) && i < |run| && c < |run[i]|
    ensures CallInv(run[i][c])
    ensures HonestDecoders(env) ==> CallerInv(run[i][c])
  {
    if i > 0 {
      CallsStay(env, run, i - 1, i);
      Reachable(env, run, i - 1, c);
      CallAcross(env, run, i - 1, c);
      StepKeepsBoth(env, run[i - 1][c], run[i][c]);
    }
  }

  // ---------------------------------------------------------------- theorems

  /** A call's handler is entered at most once, in every interleaving. */
  lemma HandlerEnteredAtMostOnce(env: Decoders, run: seq<State>, i: nat, c: nat)
    requires IsRun(env, run) && i < |run| && c < |run[i]|
    ensures run[i][c].runs <= 1
  {
    Reachable(env, run, i, c);
  }

  /** First terminal wins: a delivered result is never replaced. */
  lemma {:induction false} FirstTerminalWins(env: Decoders, run: seq<State>, i: nat, j: nat, c: nat)
    requires IsRun(env, run) && i <= j < |run| && c < |run[i]| && run[i][c].entry.Terminal?
    ensures |run[j]| == |run[i]| && run[j][c].entry == run[i][c].entry
    decreases j
  {
    if i < j {
      FirstTerminalWins(env, run, i, j - 1, c);
      TerminalAcross(env, run, j - 1, c);
    }
  }

  lemma TerminalAcross(env: Decoders, run: seq<State>, i: nat, c: nat)
    requires IsRun(env, run) && i + 1 < |run| && c < |run[i]| && run[i][c].entry.Terminal?
    ensures |run[i + 1]| == |run[i]| && run[i + 1][c].entry == run[i][c].entry
  {
    CallAcross(env, run, i, c);
    Reachable(env, run, i, c);
    if run[i + 1][c] != run[i][c] {
      TerminalStays(env, run[i][c], run[i + 1][c]);
    }
  }

  lemma TerminalStays(env: Decoders, c: Call, d: Call)
    requires CallInv(c) && Step(env, c, d) && c.entry.Terminal?
    ensures d.entry == c.entry
  {
  }

  lemma ReturnedAcross(env: Decoders, run: seq<State>, i: nat, c: nat)
    requires IsRun(env, run) && i + 1 < |run| && c < |run[i]| && run[i][c].caller.Returned?
    ensures |run[i + 1]| == |run[i]| && run[i + 1][c].caller == run[i][c].caller
  {
    CallAcross(env, run, i, c);
    if run[i + 1][c] != run[i][c] {
      ReturnIsFinal(env, run[i][c], run[i + 1][c]);
    }
  }

  lemma {:induction false} ReturnedStays(env: Decoders, run: seq<State>, i: nat, j: nat, c: nat)
    requires IsRun(env, run) && i <= j < |run| && c < |run[i]| && run[i][c].caller.Returned?
    ensures |run[j]| == |run[i]| && run[j][c].caller == run[i][c].caller
    decreases j
  {
    if i < j {
      ReturnedStays(env, run, i, j - 1, c);
      ReturnedAcross(env, run, j - 1, c);
    }
  }

  lemma StepOnlyAddsRuns(env: Decoders, c: Call, d: Call)
    requires Step(env, c, d)
    ensures c.runs <= d.runs
  {
  }

  lemma {:induction false} RunsOnlyGrow(env: Decoders, run: seq<State>, i: nat, j: nat, c: nat)
    requires IsRun(env, run) && i <= j < |run| && c < |run[i]|
    ensures |run[j]| == |run[i]| && run[i][c].runs <= run[j][c].runs
    decreases j
  {
    if i < j {
      RunsOnlyGrow(env, run, i, j - 1, c);
      CallAcross(env, run, j - 1, c);
      if run[j][c] != run[j - 1][c] {
        StepOnlyAddsRuns(env, run[j - 1][c], run[j][c]);
      }
    }
  }

  /** With honest decoders, an error that reads as retryable means the handler for that call
      did not run before and never runs after, at any point of the run. */
  lemma RetryableMeansNeverRan(env: Decoders, run: seq<State>, i: nat, j: nat, c: nat)
    requires IsRun(env, run) && HonestDecoders(env) && i < |run| && j < |run| && c < |run[i]|
    requires HoldsRetryable(run[i][c])
    ensures |run[j]| == |run[i]| && run[j][c].runs == 0
  {
    if i <= j {
      ReturnedStays(env, run, i, j, c);
      Reachable(env, run, j, c);
    } else {
      Reachable(env, run, i, c);
      CallsStay(env, run, j, i);
      RunsOnlyGrow(env, run, j, i, c);
    }
  }

  /** Retrying is safe: in no run does a caller hold a retryable error for a call whose
      handler ran. */
  ghost predicate RetryIsSafe(env: Decoders) {
    forall run: seq<State>, i: nat, c: nat ::
      IsRun(env, run) && i < |run| && c < |run[i]| && HoldsRetryable(run[i][c]) ==> run[i][c].runs == 0
  }

  /** A run of one call whose handler answers and whose answer does not decode. */
  function BadDecode(detail: bool, e: Err): seq<State> {
    var reply := if detail then StatusReply(5) else Response;
    var result := if detail then Status(5) else Bytes;
    [
      [FRESH],
      [Call(Submitted, Registered, Unsent, 0, {})],
      [Call(Published, Sending(false), Offered, 0, {})],
      [Call(Published, Sending(false), InFlight, 0, {})],
      [Call(Published, Waiting, InFlight, 0, {})],
      [Call(Published, Waiting, Taken, 0, {})],
      [Call(Published, Waiting, Running, 1, {})],
      [Call(Published, Waiting, Settled, 1, {reply})],
      [Call(Terminal(result), Waiting, Settled, 1, {})],
      [Call(Terminal(result), Returned(e), Settled, 1, {})]
    ]
  }

  lemma BadDecodeSends(env: Decoders, detail: bool, e: Err)
    ensures forall i :: 0 <= i < 5 ==> Step(env, BadDecode(detail, e)[i][0], BadDecode(detail, e)[i + 1][0])
  {
    var run := BadDecode(detail, e);
    assert Submit(run[0][0], run[1][0]);
    assert Publish(run[1][0], run[2][0], false);
    assert Transmit(run[2][0], run[3][0]);
    assert SendReturnsNil(run[3][0], run[4][0]);
    assert Take(run[4][0], run[5][0]);
  }

  lemma BadDecodeAnswers(env: Decoders, detail: bool, e: Err)
    requires if detail then e in env.detail else e in env.response
    ensures forall i :: 5 <= i < 9 ==> Step(env, BadDecode(detail, e)[i][0], BadDecode(detail, e)[i + 1][0])
  {
    var run := BadDecode(detail, e);
    var reply := if detail then StatusReply(5) else Response;
    var result := if detail then Status(5) else Bytes;
    assert EnterHandler(run[5][0], run[6][0]);
    assert HandlerReplies(run[6][0], run[7][0], reply, 5);
    assert {reply} - {reply} == {};
    assert Receive(run[7][0], run[8][0], reply, result);
    assert Collect(env, run[8][0], run[9][0], Returned(e));
  }

  lemma BadDecodeIsARun(env: Decoders, detail: bool, e: Err)
    requires if detail then e in env.detail else e in env.response
    ensures IsRun(env, BadDecode(detail, e))
  {
    var run := BadDecode(detail, e);
    BadDecodeSends(env, detail, e);
    BadDecodeAnswers(env, detail, e);
    forall i | 0 <= i < |run| - 1
      ensures Next(env, run[i], run[i + 1])
    {
      assert Step(env, run[i][0], run[i + 1][0]);
      assert run[i + 1] == run[i][0 := run[i + 1][0]];
    }
  }

  /** The classification promises more than it keeps: a codec's own error is passed through,
      so one that wraps a retryable sentinel is read as a call that never happened. */
  lemma DecoderErrorEscapes()
    ensures !RetryIsSafe(Decoders(iset{Bare(Backpressure)}, iset{}))
  {
    var env, e := Decoders(iset{Bare(Backpressure)}, iset{}), Bare(Backpressure);
    BadDecodeIsARun(env, false, e);
    assert BadDecode(false, e)[9][0].runs == 1;
  }

  /** Retrying is safe exactly when no decoder returns an error that reads as retryable. */
  lemma RetryIsSafeExactlyWithHonestDecoders(env: Decoders)
    ensures RetryIsSafe(env) <==> HonestDecoders(env)
  {
    if HonestDecoders(env) {
      forall run: seq<State>, i: nat, c: nat
        | IsRun(env, run) && i < |run| && c < |run[i]| && HoldsRetryable(run[i][c])
        ensures run[i][c].runs == 0
      {
        RetryableMeansNeverRan(env, run, i, i, c);
      }
    } else {
      var detail, e :| IsRetryable(e) && (if detail then e in env.detail else e in env.response);
      BadDecodeIsARun(env, detail, e);
      assert BadDecode(detail, e)[9][0].runs == 1;
    }
  }

  // ---------------------------------------------------------------- what a refusal reads as

  /** A call turned away before it reached the plugin reads as retryable where a fresh attempt
      can help: routing gone, admission closed, torn down before publication, or declined. */
  lemma RefusalsReadRetryable(env: Decoders, c: Call, d: Call, out: Caller)
    ensures Refuse(c, d, RoutingGone) || Refuse(c, d, AdmissionClosed) ==> IsRetryable(d.caller.err)
    ensures FailSubmitted(c, d) && Seen(env, d.entry.result, out) ==> out.Returned? && IsRetryable(out.err)
    ensures Seen(env, Status(REQUEST_DECLINED), out) ==> out.Returned? && IsRetryable(out.err)
  {
  }

  /** And not where its outcome is unknown, whatever else the error wraps. */
  lemma UnknownOutcomesReadFinal(env: Decoders, c: Call, d: Call, e: Err, out: Caller)
    ensures SendUnclear(c, d, e) && c.entry == Published && Seen(env, d.entry.result, out) ==>
              out.Returned? && !IsRetryable(out.err)
    ensures FailPublished(c, d, e) && Seen(env, d.entry.result, out) ==> out.Returned? && !IsRetryable(out.err)
    ensures Abandon(c, d, e) ==> !IsRetryable(d.caller.err)
  {
  }

  /** The marks of an error that comes from the transport or the context alone. */
  predicate FromTransport(e: Err) {
    && e.crash.None?
    && forall m :: m in e.marks ==>
         m == FillFailed || m == TransportBackpressure || m == TransportTooLarge || m == UnimplementedKind
         || m == ContextCanceled || m == ContextDeadline
  }

  /** A send that provably never left is retryable exactly for backpressure, the one cause that
      passes; a context end is the caller's own, and only an oversize payload is told as one. */
  lemma SendFailuresAreTold(e: Err)
    requires FromTransport(e)
    ensures var told := TranslateSendFailure(e); var own := IsContextErr(e) || FillFailed in e.marks;
      && (IsRetryable(told) <==> !own && TransportBackpressure in e.marks)
      && (DeadlineExceeded in told.marks <==> ContextDeadline in e.marks)
      && (Canceled in told.marks <==> ContextCanceled in e.marks && ContextDeadline !in e.marks)
      && (PayloadTooLarge in told.marks <==>
            !own && TransportTooLarge in e.marks && TransportBackpressure !in e.marks)
  {
  }

  // ---------------------------------------------------------------- success

  /** The call can still end well: its answer is delivered, queued, or can still be given. */
  predicate Hopeful(c: Call) {
    match c.caller
    case Starting => true
    case Registered => c.entry == Submitted
    case Sending(_) => AnswerCanCome(c)
    case Waiting => AnswerCanCome(c)
    case Succeeded => true
    case Returned(_) => false
  }

  predicate AnswerCanCome(c: Call) {
    || c.entry == Terminal(Bytes) || c.entry == Terminal(Message(true))
    || (c.entry == Published && (Response in c.replies || c.request == Offered || c.request == InFlight
                                 || c.request == Taken || c.request == Running))
  }

  ghost predicate CallPath(env: Decoders, c: Call, chain: seq<Call>) {
    && |chain| > 0 && chain[0] == c
    && forall k: nat :: k < |chain| - 1 ==> Linked(env, chain, k)
  }

  ghost predicate Linked(env: Decoders, chain: seq<Call>, k: nat)
    requires k + 1 < |chain|
  {
    Step(env, chain[k], chain[k + 1])
  }

  ghost predicate SucceedsIn(env: Decoders, c: Call, chain: seq<Call>) {
    CallPath(env, c, chain) && chain[|chain| - 1].caller == Succeeded
  }

  ghost predicate CanSucceed(env: Decoders, c: Call) {
    exists chain :: SucceedsIn(env, c, chain)
  }

  lemma CallerStaysHopeless(env: Decoders, c: Call, d: Call)
    requires CallInv(c) && !Hopeful(c) && (CallerStep(env, c, d) || CallerErrs(c, d))
    ensures !Hopeful(d)
  {
  }

  lemma PluginStaysHopeless(c: Call, d: Call)
    requires CallInv(c) && !Hopeful(c) && PluginStep(c, d)
    ensures !Hopeful(d)
  {
  }

  lemma TeardownStaysHopeless(c: Call, d: Call)
    requires CallInv(c) && !Hopeful(c) && TeardownStep(c, d)
    ensures !Hopeful(d)
  {
  }

  lemma ReplyStaysHopeless(c: Call, d: Call)
    requires CallInv(c) && !Hopeful(c) && ReplyStep(c, d)
    ensures !Hopeful(d)
  {
    if reply, result :| Receive(c, d, reply, result) {
    } else if code: nat :| AnswerWithoutHandler(c, d, code) {
    } else {
      var reply, chosen: nat :| HandlerReplies(c, d, reply, chosen);
    }
  }

  lemma {:induction false} HopelessForGood(env: Decoders, c: Call, chain: seq<Call>, k: nat)
    requires CallInv(c) && !Hopeful(c) && CallPath(env, c, chain) && k < |chain|
    ensures CallInv(chain[k]) && !Hopeful(chain[k])
  {
    if k > 0 {
      HopelessForGood(env, c, chain, k - 1);
      assert Linked(env, chain, k - 1);
      HopelessStep(env, chain[k - 1], chain[k]);
    }
  }

  lemma HopelessStep(env: Decoders, c: Call, d: Call)
    requires CallInv(c) && !Hopeful(c) && Step(env, c, d)
    ensures CallInv(d) && !Hopeful(d)
  {
    StepKeepsCallInv(env, c, d);
    if CallerStep(env, c, d) || CallerErrs(c, d) {
      CallerStaysHopeless(env, c, d);
    } else if PluginStep(c, d) {
      PluginStaysHopeless(c, d);
    } else if ReplyStep(c, d) {
      ReplyStaysHopeless(c, d);
    } else {
      TeardownStaysHopeless(c, d);
    }
  }

  /** How far a hopeful call is from its success. */
  function Distance(c: Call): nat {
    if c.caller == Succeeded then 0
    else if c.caller == Starting then 9
    else if c.caller == Registered then 8
    else
      (if c.caller.Sending? then 1 else 0)
      + if c.entry.Terminal? then 1
        else if Response in c.replies then 2
        else match c.request
          case Running => 3
          case Taken => 4
          case InFlight => 5
          case _ => 6
  }

  /** A step of whoever is next towards the success of a hopeful call. */
  lemma HopefulStep(env: Decoders, c: Call) returns (d: Call)
    requires CallInv(c) && Hopeful(c) && c.caller != Succeeded
    ensures Step(env, c, d) && Hopeful(d) && Distance(d) < Distance(c)
  {
    if c.caller == Starting {
      d := c.(caller := Registered, entry := Submitted);
      assert Submit(c, d);
    } else if c.caller == Registered {
      d := c.(entry := Published, caller := Sending(false), request := Offered);
      assert Publish(c, d, false);
    } else if c.entry.Terminal? {
      d := CollectStep(env, c);
    } else if Response in c.replies {
      d := c.(entry := Terminal(Message(true)), replies := c.replies - {Response});
      assert Receive(c, d, Response, Message(true));
    } else {
      d := RequestStep(env, c);
    }
  }

  lemma CollectStep(env: Decoders, c: Call) returns (d: Call)
    requires c.caller.Sending? || c.caller == Waiting
    requires c.entry == Terminal(Bytes) || c.entry == Terminal(Message(true))
    ensures Step(env, c, d) && Hopeful(d) && Distance(d) < Distance(c)
  {
    if c.caller.Sending? {
      d := c.(caller := Waiting);
      assert SendReturnsNil(c, d);
    } else {
      d := c.(caller := Succeeded);
      assert Collect(env, c, d, Succeeded);
    }
  }

  lemma RequestStep(env: Decoders, c: Call) returns (d: Call)
    requires (c.caller.Sending? || c.caller == Waiting) && c.entry == Published && Response !in c.replies && Hopeful(c)
    ensures Step(env, c, d) && Hopeful(d) && Distance(d) < Distance(c)
  {
    match c.request
    case Offered =>
      d := c.(request := InFlight);
      assert Transmit(c, d);
    case InFlight =>
      d := c.(request := Taken);
      assert Take(c, d);
    case Taken =>
      d := c.(request := Running, runs := c.runs + 1);
      assert EnterHandler(c, d);
    case Running =>
      d := c.(request := Settled, replies := c.replies + {Response});
      assert HandlerReplies(c, d, Response, 0);
  }

  lemma {:induction false} HopefulSucceeds(env: Decoders, c: Call) returns (chain: seq<Call>)
    requires CallInv(c) && Hopeful(c)
    ensures SucceedsIn(env, c, chain)
    decreases Distance(c)
  {
    if c.caller == Succeeded {
      chain := [c];
    } else {
      var d := HopefulStep(env, c);
      StepKeepsCallInv(env, c, d);
      var rest := HopefulSucceeds(env, d);
      chain := [c] + rest;
      forall k: nat | k < |chain| - 1
        ensures Linked(env, chain, k)
      {
        assert chain[k + 1] == rest[k];
        assert k > 0 ==> chain[k] == rest[k - 1] && Linked(env, rest, k - 1);
      }
    }
  }

  /** At every point of every run, whatever the codec: a call can still succeed exactly when
      its answer was delivered as such, is queued, or can still be given. */
  lemma SucceedsExactlyWhenHopeful(env: Decoders, run: seq<State>, i: nat, c: nat)
    requires IsRun(env, run) && i < |run| && c < |run[i]|
    ensures CanSucceed(env, run[i][c]) <==> Hopeful(run[i][c])
  {
    Reachable(env, run, i, c);
    var me := run[i][c];
    if Hopeful(me) {
      var chain := HopefulSucceeds(env, me);
    } else {
      forall chain
        ensures !SucceedsIn(env, me, chain)
      {
        if SucceedsIn(env, me, chain) {
          HopelessForGood(env, me, chain, |chain| - 1);
        }
      }
    }
  }

  // ---------------------------------------------------------------- every call ends

  /** Nothing is left in the table behind a caller that has returned. */
  lemma ReturnedLeavesNothingBehind(env: Decoders, run: seq<State>, i: nat, c: nat)
    requires IsRun(env, run) && i < |run| && c < |run[i]|
    requires run[i][c].caller.Returned? || run[i][c].caller == Succeeded
    ensures run[i][c].entry == Unregistered || run[i][c].entry.Terminal?
  {
    Reachable(env, run, i, c);
  }

  /** A caller that waits can always end its wait: when its deadline fires it is told what was
      delivered, or else that its deadline passed; when it abandons, that its context ended. */
  lemma WaitCanEnd(env: Decoders, c: Call, e: Err) returns (d: Call, late: Call, gone: Call)
    requires CallInv(c) && c.caller == Waiting && IsContextErr(e)
    ensures DeadlineFires(c, d) && d.entry.Terminal? && (c.entry.Terminal? ==> d.entry == c.entry)
    ensures !c.entry.Terminal? ==> Collect(env, d, late, Returned(Bare(DeadlineExceeded)))
    ensures Abandon(c, gone, e) && gone.entry.Terminal? && (c.entry.Terminal? ==> gone.entry == c.entry)
    ensures gone.caller == Returned(if ContextDeadline in e.marks then Bare(DeadlineExceeded) else Bare(Canceled))
  {
    d := c.(entry := Terminate(c.entry, Fault(Bare(RuntimeDeadline)), true));
    late := d.(caller := Returned(Bare(DeadlineExceeded)));
    gone := c.(entry := Terminate(c.entry, Fault(Bare(CanceledLocally)), true), caller := Returned(TranslateCtxErr(e)));
  }

  // ---------------------------------------------------------------- unknown names

  predicate NotFoundCode(code: nat) {
    code == SERVICE_NOT_FOUND || code == METHOD_NOT_FOUND
  }

  /** An answer that names no handler. */
  predicate NotFoundInv(c: Call) {
    && (forall x :: x in c.replies && x.StatusReply? && NotFoundCode(x.code) ==> Dead(c))
    && (c.entry.Terminal? && c.entry.result.Status? && NotFoundCode(c.entry.result.code) ==> Dead(c))
  }

  lemma CallerKeepsNotFound(env: Decoders, c: Call, d: Call)
    requires CallInv(c) && NotFoundInv(c) && (CallerStep(env, c, d) || CallerErrs(c, d))
    ensures NotFoundInv(d)
  {
  }

  lemma PluginKeepsNotFound(c: Call, d: Call)
    requires CallInv(c) && NotFoundInv(c) && (PluginStep(c, d) || TeardownStep(c, d))
    ensures NotFoundInv(d)
  {
  }

  lemma RepliesKeepNotFound(c: Call, d: Call)
    requires CallInv(c) && NotFoundInv(c) && ReplyStep(c, d)
    ensures NotFoundInv(d)
  {
  }

  lemma {:induction false} NotFoundHolds(env: Decoders, run: seq<State>, i: nat, c: nat)
    requires IsRun(env, run) && i < |run| && c < |run[i]|
    ensures NotFoundInv(run[i][c])
  {
    if i > 0 {
      CallsStay(env, run, i - 1, i);
      NotFoundHolds(env, run, i - 1, c);
      NotFoundAcross(env, run, i - 1, c);
    }
  }

  lemma NotFoundAcross(env: Decoders, run: seq<State>, i: nat, c: nat)
    requires IsRun(env, run) && i + 1 < |run| && c < |run[i]| && NotFoundInv(run[i][c])
    ensures |run[i + 1]| == |run[i]| && NotFoundInv(run[i + 1][c])
  {
    Reachable(env, run, i, c);
    CallAcross(env, run, i, c);
    var b, d := run[i][c], run[i + 1][c];
    if b == d {
    } else if CallerStep(env, b, d) || CallerErrs(b, d) {
      CallerKeepsNotFound(env, b, d);
    } else if ReplyStep(b, d) {
      RepliesKeepNotFound(b, d);
    } else {
      PluginKeepsNotFound(b, d);
    }
  }

  /** A caller told that its service or method is unknown is told that and nothing else, and no
      handler ran; one told of a panic or an internal fault is told no sentinel at all. */
  lemma StatusesAreTold(env: Decoders, run: seq<State>, i: nat, c: nat, d: Call, out: Caller)
    requires IsRun(env, run) && i < |run| && c < |run[i]| && Collect(env, run[i][c], d, out)
    requires run[i][c].entry.result.Status?
    ensures var code := run[i][c].entry.result.code;
      && out.Returned?
      && (NotFoundCode(code) ==> d.runs == 0)
      && (code == SERVICE_NOT_FOUND ==> out.err == Bare(ServiceNotFound))
      && (code == METHOD_NOT_FOUND ==> out.err == Bare(MethodNotFound))
      && (code == INTERNAL || code == HANDLER_PANIC ==> out.err.marks == {} && !IsRetryable(out.err))
  {
    NotFoundHolds(env, run, i, c);
  }
}

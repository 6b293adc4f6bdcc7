/**
 bmq_consume: the receive loops, written as the source writes them, proved against

 - a closed description of what the call returns (`Returned`), and
 - the transition system of ClientMachine: every call is one of its runs.

 Clock readings, nextEvent results and the return codes of the confirm calls are inputs.
 */
module Consume {
  import opened Messages
  import opened ClientMachine
  import Flow
  import Queues
  import Calls

  /** What nextEvent returned: a PUSH event, or a session event, timeout or other message event. */
  datatype Event = Push(messages: seq<Message>) | Other

  /** Return codes met while the n-th message of the call is confirmed. */
  datatype Outcome = Outcome(
    fits: bool,      // first addMessageConfirmation
    accepted: bool,  // confirmMessage, or the confirmMessages this message caused
    refits: bool     // second addMessageConfirmation
  )

  datatype Env = Env(
    clock: nat -> int,          // steady_clock::now(), n-th reading, in nanoseconds
    poll: nat -> Event,         // n-th nextEvent of the call
    outcome: nat -> Outcome,
    last: bool                  // the confirmMessages after the loops
  )

  const NANOS_PER_MS := 1_000_000

  /** duration_cast<milliseconds>: truncates towards zero. */
  function Millis(nanos: int): int {
    if nanos >= 0 then nanos / NANOS_PER_MS else -(-nanos / NANOS_PER_MS)
  }

  /** remaining_ms as computed before the k-th nextEvent. */
  function RemainingMs(env: Env, timeoutMs: int, k: nat): int {
    Millis(env.clock(0) + timeoutMs * NANOS_PER_MS - env.clock(k + 1))
  }

  /** When a reading is late, and how long it leaves to wait, on the clock itself: whole milliseconds, rounded down. */
  lemma RemainingOnClock(env: Env, timeoutMs: int, k: nat)
    ensures var left := env.clock(0) + timeoutMs * 1_000_000 - env.clock(k + 1); var ms := RemainingMs(env, timeoutMs, k);
            && (ms <= 0 <==> left < 1_000_000)
            && (ms > 0 ==> ms * 1_000_000 <= left < (ms + 1) * 1_000_000)
  {
  }

  /** The number of nextEvent calls the deadline allows; the clock is past it at `horizon`. */
  ghost function PollLimit(env: Env, timeoutMs: int, horizon: nat, k: nat := 0): (n: nat)
    requires k <= horizon && RemainingMs(env, timeoutMs, horizon) <= 0
    ensures k <= n <= horizon
    decreases horizon - k
  {
    if RemainingMs(env, timeoutMs, k) <= 0 then k else PollLimit(env, timeoutMs, horizon, k + 1)
  }

  /**
   On the clock: the reading before each allowed nextEvent is at least a whole millisecond before
   the deadline, and the next reading is not.
   */
  lemma {:induction false} PollLimitOnClock(env: Env, timeoutMs: int, horizon: nat, k: nat := 0)
    requires k <= horizon && RemainingMs(env, timeoutMs, horizon) <= 0
    ensures var n, deadline := PollLimit(env, timeoutMs, horizon, k), env.clock(0) + timeoutMs * 1_000_000;
            && env.clock(n + 1) + 1_000_000 > deadline
            && forall j :: k < j <= n ==> env.clock(j) + 1_000_000 <= deadline
    decreases horizon - k
  {
    hide RemainingMs;
    RemainingOnClock(env, timeoutMs, k);
    if RemainingMs(env, timeoutMs, k) > 0 {
      PollLimitOnClock(env, timeoutMs, horizon, k + 1);
    }
  }

  /** All messages of the first `n` polled events, in order. */
  ghost function Stream(poll: nat -> Event, n: nat): seq<Message> {
    if n == 0 then []
    else Stream(poll, n - 1) + (if poll(n - 1).Push? then poll(n - 1).messages else [])
  }

  ghost function PushCount(poll: nat -> Event, n: nat): nat {
    if n == 0 then 0 else PushCount(poll, n - 1) + (if poll(n - 1).Push? then 1 else 0)
  }

  /** What a call returns: the first `max` messages of everything polled before the deadline. */
  ghost function Returned(env: Env, max: nat, timeoutMs: int, horizon: nat): seq<Message>
    requires RemainingMs(env, timeoutMs, horizon) <= 0
  {
    var s := Stream(env.poll, PollLimit(env, timeoutMs, horizon));
    if |s| <= max then s else s[..max]
  }

  /** Events already queued in the session come out first, in their order. */
  ghost predicate QueueFirst(arrived: seq<seq<Message>>, poll: nat -> Event) {
    forall k: nat :: poll(k).Push? && PushCount(poll, k) < |arrived| ==>
                       poll(k).messages == arrived[PushCount(poll, k)]
  }

  function Payloads(ms: seq<Message>): (rows: seq<seq<bv8>>)
    ensures |rows| == |ms| && forall i :: 0 <= i < |ms| ==> rows[i] == ms[i].payload
  {
    seq(|ms|, i requires 0 <= i < |ms| => ms[i].payload)
  }

  class ConfirmEventBuilder {
    var messages: seq<Message>

    constructor ()
      ensures messages == []
    {
      messages := [];
    }

    method AddMessageConfirmation(m: Message, fits: bool) returns (ok: bool)
      modifies this
      ensures ok == fits && messages == (if fits then old(messages) + [m] else old(messages))
    {
      if fits {
        messages := messages + [m];
      }
      ok := fits;
    }
  }

  class Session {
    var confirmed: seq<Message>   // confirms the broker has accepted from this process

    constructor ()
      ensures confirmed == []
    {
      confirmed := [];
    }

    method ConfirmMessage(m: Message, accepted: bool) returns (ok: bool)
      modifies this
      ensures ok == accepted && confirmed == (if accepted then old(confirmed) + [m] else old(confirmed))
    {
      if accepted {
        confirmed := confirmed + [m];
      }
      ok := accepted;
    }

    /** Success empties the builder, failure leaves it as it was. */
    method ConfirmMessages(builder: ConfirmEventBuilder, accepted: bool) returns (ok: bool)
      modifies this, builder
      ensures ok == accepted
      ensures confirmed == (if accepted then old(confirmed) + old(builder.messages) else old(confirmed))
      ensures builder.messages == (if accepted then [] else old(builder.messages))
    {
      if accepted {
        confirmed := confirmed + builder.messages;
        builder.messages := [];
      }
      ok := accepted;
    }
  }

  /** `c` is where the actions `log` take `c0`, with no exception among them. */
  ghost predicate Traced(c0: Client, log: seq<Action>, c: Client) {
    Valid(FLUSH_THRESHOLD, c0, log) && Run(FLUSH_THRESHOLD, c0, log) == c && forall a :: a in log ==> !a.Raise?
  }

  /** The failed confirm calls in a log. */
  function Failures(log: seq<Action>): nat {
    if log == [] then 0 else Failures(log[..|log| - 1]) + (if Fails(log[|log| - 1]) then 1 else 0)
  }

  predicate Fails(a: Action) {
    a == Flush(false) || a == Retry(false) || a == Confirm(false)
  }

  lemma NoFailures()
    ensures Failures([]) == 0
  {
  }

  lemma Extend(c0: Client, log: seq<Action>, c: Client, a: Action)
    requires Traced(c0, log, c) && Enabled(c, a) && !a.Raise?
    ensures Traced(c0, log + [a], Exec(FLUSH_THRESHOLD, c, a))
    ensures Failures(log + [a]) == Failures(log) + (if Fails(a) then 1 else 0)
  {
    assert (log + [a])[..|log + [a]| - 1] == log;
    RunSnoc(FLUSH_THRESHOLD, c0, log, a);
  }

  ghost predicate Smooth(log: seq<Action>) {
    forall a :: a in log ==> Faultless(a)
  }

  /** Nothing that confirms the n-th message fails, except that the builder may overflow. */
  ghost predicate Works(o: Outcome) {
    o.accepted && o.refits
  }

  /** What is done to confirm a message, with `held` others in the builder. */
  function ConfirmActions(held: nat, batch: bool, o: Outcome): seq<Action> {
    if !batch then [Confirm(o.accepted)]
    else if !o.fits then [AddFull, Flush(o.accepted), Retry(o.refits)]
    else if held + 1 >= 500 then [AddOk, Flush(o.accepted)]
    else [AddOk]
  }

  /** What the process has confirmed and still holds afterwards. */
  ghost predicate ConfirmEffect(c: Client, m: Message, batch: bool, o: Outcome, confirmed: seq<Message>, held: seq<Message>) {
    var flushed := if o.accepted then c.confirmed + c.held else c.confirmed;
    var kept := if o.accepted then [] else c.held;
    if !batch then confirmed == c.confirmed + (if o.accepted then [m] else []) && held == c.held
    else if !o.fits then confirmed == flushed && held == kept + (if o.refits then [m] else [])
    else if |c.held| + 1 >= 500 && o.accepted then confirmed == c.confirmed + (c.held + [m]) && held == []
    else confirmed == c.confirmed && held == c.held + [m]
  }

  /** These actions are a run of the transition system with this effect. */
  lemma Confirmation(c0: Client, log: seq<Action>, c: Client, m: Message, batch: bool, o: Outcome)
    returns (log': seq<Action>, c': Client)
    requires Traced(c0, log, c) && c.pc == InHand(m) && c.mode == (if batch then Batched else Immediate)
    ensures Traced(c0, log', c') && log' == log + ConfirmActions(|c.held|, batch, o)
    ensures ConfirmEffect(c, m, batch, o, c'.confirmed, c'.held)
    ensures c' == c.(pc := Receiving, confirmed := c'.confirmed, held := c'.held, givenUp := c'.givenUp,
                     badFlushes := c'.badFlushes)
    ensures Failures(log') == Failures(log)
                              + (if !batch then (if o.accepted then 0 else 1)
                                 else if !o.fits then (if o.accepted then 0 else 1) + (if o.refits then 0 else 1)
                                 else if |c.held| + 1 >= 500 && !o.accepted then 1 else 0)
  {
    hide Traced, Failures;
    if !batch {
      Extend(c0, log, c, Confirm(o.accepted));
      log', c' := log + [Confirm(o.accepted)], Exec(FLUSH_THRESHOLD, c, Confirm(o.accepted));
    } else if o.fits {
      log', c' := Added(c0, log, c, m, o);
    } else {
      log', c' := Overflowed(c0, log, c, m, o);
    }
  }

  lemma Added(c0: Client, log: seq<Action>, c: Client, m: Message, o: Outcome) returns (log': seq<Action>, c': Client)
    requires Traced(c0, log, c) && c.pc == InHand(m) && c.mode.Batched? && o.fits
    ensures Traced(c0, log', c') && log' == log + ConfirmActions(|c.held|, true, o)
    ensures ConfirmEffect(c, m, true, o, c'.confirmed, c'.held)
    ensures c' == c.(pc := Receiving, confirmed := c'.confirmed, held := c'.held, badFlushes := c'.badFlushes)
    ensures Failures(log') == Failures(log) + (if |c.held| + 1 >= 500 && !o.accepted then 1 else 0)
  {
    hide Traced, Failures;
    Extend(c0, log, c, AddOk);
    log', c' := log + [AddOk], Exec(FLUSH_THRESHOLD, c, AddOk);
    if |c.held| + 1 >= 500 {
      Extend(c0, log', c', Flush(o.accepted));
      log', c' := log' + [Flush(o.accepted)], Exec(FLUSH_THRESHOLD, c', Flush(o.accepted));
    }
  }

  lemma Overflowed(c0: Client, log: seq<Action>, c: Client, m: Message, o: Outcome) returns (log': seq<Action>, c': Client)
    requires Traced(c0, log, c) && c.pc == InHand(m) && c.mode.Batched? && !o.fits
    ensures Traced(c0, log', c') && log' == log + ConfirmActions(|c.held|, true, o)
    ensures ConfirmEffect(c, m, true, o, c'.confirmed, c'.held)
    ensures c' == c.(pc := Receiving, confirmed := c'.confirmed, held := c'.held, givenUp := c'.givenUp,
                     badFlushes := c'.badFlushes)
    ensures Failures(log') == Failures(log) + (if o.accepted then 0 else 1) + (if o.refits then 0 else 1)
  {
    hide Traced, Failures;
    Extend(c0, log, c, AddFull);
    log', c' := log + [AddFull], Exec(FLUSH_THRESHOLD, c, AddFull);
    Extend(c0, log', c', Flush(o.accepted));
    log', c' := log' + [Flush(o.accepted)], Exec(FLUSH_THRESHOLD, c', Flush(o.accepted));
    Extend(c0, log', c', Retry(o.refits));
    log', c' := log' + [Retry(o.refits)], Exec(FLUSH_THRESHOLD, c', Retry(o.refits));
  }

  /**
   The confirm half of one loop iteration: one confirm, or an addition to the builder with a flush
   at 500 messages, or a flush and a second addition when the first does not fit; a WARNING for
   each call that fails.
   */
  method ConfirmOne(session: Session, builder: ConfirmEventBuilder, m: Message, batch: bool, o: Outcome,
                    ghost c0: Client, ghost log: seq<Action>, ghost c: Client)
    returns (warnings: nat, ghost log': seq<Action>, ghost c': Client)
    requires Traced(c0, log, c) && c.pc == InHand(m) && c.mode == (if batch then Batched else Immediate)
    requires session.confirmed == c.confirmed && builder.messages == c.held
    modifies session, builder
    ensures Traced(c0, log', c') && session.confirmed == c'.confirmed && builder.messages == c'.held
    ensures ConfirmEffect(c, m, batch, o, c'.confirmed, c'.held)
    ensures c' == c.(pc := Receiving, confirmed := c'.confirmed, held := c'.held, givenUp := c'.givenUp,
                     badFlushes := c'.badFlushes)
    ensures log' == log + ConfirmActions(|c.held|, batch, o) && Failures(log') == Failures(log) + warnings
    ensures warnings == (if !batch then (if o.accepted then 0 else 1)
                         else if !o.fits then (if o.accepted then 0 else 1) + (if o.refits then 0 else 1)
                         else if |c.held| + 1 >= 500 && !o.accepted then 1 else 0)
  {
    hide Traced, Failures;
    log', c' := Confirmation(c0, log, c, m, batch, o);
    warnings := 0;
    if batch {
      var added := builder.AddMessageConfirmation(m, o.fits);
      if !added {
        var flushed := session.ConfirmMessages(builder, o.accepted);
        if !flushed {
          warnings := warnings + 1;
        }
        added := builder.AddMessageConfirmation(m, o.refits);
        if !added {
          warnings := warnings + 1;
        }
      } else if |builder.messages| >= FLUSH_THRESHOLD {
        var flushed := session.ConfirmMessages(builder, o.accepted);
        if !flushed {
          warnings := warnings + 1;
        }
      }
    } else {
      var confirmed := session.ConfirmMessage(m, o.accepted);
      if !confirmed {
        warnings := warnings + 1;
      }
    }
  }

  lemma {:induction false} StreamPrefix(poll: nat -> Event, k: nat, n: nat)
    requires k <= n
    ensures Stream(poll, k) <= Stream(poll, n)
  {
    if k < n {
      StreamPrefix(poll, k, n - 1);
    }
  }

  /** The poll limit lies at or after every reading before which none was late. */
  lemma {:induction false} LimitAt(env: Env, timeoutMs: int, horizon: nat, k: nat, from: nat := 0)
    requires from <= k && from <= horizon && RemainingMs(env, timeoutMs, horizon) <= 0
    requires forall j :: from <= j < k ==> RemainingMs(env, timeoutMs, j) > 0
    ensures k <= horizon && k <= PollLimit(env, timeoutMs, horizon, from)
    ensures RemainingMs(env, timeoutMs, k) <= 0 ==> PollLimit(env, timeoutMs, horizon, from) == k
    decreases k - from
  {
    if from < k {
      LimitAt(env, timeoutMs, horizon, k, from + 1);
    }
  }

  function Rest(arrived: seq<seq<Message>>, n: nat): seq<seq<Message>> {
    if n <= |arrived| then arrived[n..] else []
  }

  /** A PUSH event comes out of nextEvent: from the session's queue, or just arrived. */
  lemma Polled(arrived: seq<seq<Message>>, poll: nat -> Event, k: nat, c0: Client, log: seq<Action>, c: Client)
    returns (log': seq<Action>, c': Client)
    requires QueueFirst(arrived, poll) && poll(k).Push? && Traced(c0, log, c)
    requires c.arrived == Rest(arrived, PushCount(poll, k))
    requires c.pc.Receiving? && c.current == [] && (c.mode.Subscriber? || c.wanted > 0)
    ensures Traced(c0, log', c') && c'.arrived == Rest(arrived, PushCount(poll, k + 1))
    ensures c' == c.(arrived := c'.arrived, current := poll(k).messages, delivered := c'.delivered)
    ensures |log| <= |log'| && log'[..|log|] == log && (Smooth(log) ==> Smooth(log')) && Failures(log') == Failures(log)
  {
    hide Traced, Failures;
    log', c' := log, c;
    if c.arrived == [] {
      Extend(c0, log', c', Arrive(poll(k).messages));
      log', c' := log' + [Arrive(poll(k).messages)], Exec(FLUSH_THRESHOLD, c', Arrive(poll(k).messages));
    }
    assert c'.arrived[0] == poll(k).messages;
    Extend(c0, log', c', Read);
    log', c' := log' + [Read], Exec(FLUSH_THRESHOLD, c', Read);
  }

  ghost predicate AllWork(env: Env) {
    (forall n: nat :: Works(env.outcome(n))) && env.last
  }

  /** What is known of a finished call. */
  ghost predicate Pulled(env: Env, max: nat, timeoutMs: int, horizon: nat, batch: bool,
                         c0: Client, log: seq<Action>, c: Client, taken: seq<Message>, polls: nat)
    requires RemainingMs(env, timeoutMs, horizon) <= 0
  {
    && Traced(c0, log, c) && log != [] && log[0] == Begin(if batch then Batched else Immediate, max)
    && c.pc.Idle? && (AllWork(env) ==> Smooth(log))
    && polls <= PollLimit(env, timeoutMs, horizon)
    && taken == Returned(env, max, timeoutMs, horizon)
    && c.served == c0.served + taken
    && taken <= Stream(env.poll, polls)
    && c.passed == c0.passed + Stream(env.poll, polls)[|taken|..]
  }

  /** The state shared by the loops of BmqConsume, tied to the transition system. */
  ghost predicate InLoop(env: Env, max: nat, batch: bool, c0: Client, log: seq<Action>, c: Client,
                         taken: seq<Message>, k: nat)
  {
    && Traced(c0, log, c) && log != [] && log[0] == Begin(if batch then Batched else Immediate, max)
    && (AllWork(env) ==> Smooth(log))
    && c.pc.Receiving? && c.mode == (if batch then Batched else Immediate)
    && c.wanted == max - |taken| && c.passed == c0.passed && c.served == c0.served + taken
    && c.arrived == Rest(c0.arrived, PushCount(env.poll, k))
    && taken + c.current == Stream(env.poll, k)
  }

  lemma Started(c0: Client, max: nat, batch: bool) returns (log: seq<Action>, c: Client)
    requires Shape(c0) && c0.pc.Idle? && max >= 1
    ensures var mode := if batch then Batched else Immediate;
            log == [Begin(mode, max)] && c == c0.(pc := Receiving, mode := mode, wanted := max, badFlushes := 0)
    ensures Traced(c0, log, c) && Smooth(log) && Failures(log) == 0 && c.current == [] && c.held == []
  {
    var a := Begin(if batch then Batched else Immediate, max);
    OneStep(FLUSH_THRESHOLD, c0, a);
    log, c := [a], Exec(FLUSH_THRESHOLD, c0, a);
  }

  lemma TakenOne(c0: Client, log: seq<Action>, c: Client) returns (log': seq<Action>, c': Client)
    requires Traced(c0, log, c) && c.pc.Receiving? && !c.mode.Subscriber? && c.current != [] && c.wanted > 0
    ensures Traced(c0, log', c') && |log| < |log'| && log'[..|log|] == log && (Smooth(log) ==> Smooth(log'))
    ensures Failures(log') == Failures(log)
    ensures c' == c.(pc := InHand(c.current[0]), current := c.current[1..], served := c.served + [c.current[0]],
                     wanted := c.wanted - 1)
  {
    hide Traced, Failures;
    Extend(c0, log, c, Take);
    log', c' := log + [Take], Exec(FLUSH_THRESHOLD, c, Take);
  }

  lemma Finished(c0: Client, log: seq<Action>, c: Client, last: bool) returns (log': seq<Action>, c': Client)
    requires Traced(c0, log, c) && c.pc.Receiving? && !c.mode.Subscriber? && (c.current == [] || c.wanted == 0)
    ensures Traced(c0, log', c') && |log| < |log'| && log'[..|log|] == log && (Smooth(log) && last ==> Smooth(log'))
    ensures c'.pc.Idle? && c'.served == c.served && c'.passed == c.passed + c.current
    ensures c'.confirmed == c.confirmed + (if last then c.held else [])
    ensures Failures(log') == Failures(log) + (if c.held != [] && !last then 1 else 0)
  {
    hide Traced, Failures;
    Extend(c0, log, c, End);
    log', c' := log + [End], Exec(FLUSH_THRESHOLD, c, End);
    if c'.pc.LastFlush? {
      Extend(c0, log', c', Flush(last));
      log', c' := log' + [Flush(last)], Exec(FLUSH_THRESHOLD, c', Flush(last));
    }
  }

  /** Inside the loops the next message of the event can be taken. */
  lemma TakeInLoop(env: Env, max: nat, batch: bool, c0: Client, log: seq<Action>, c: Client, taken: seq<Message>, k: nat)
    returns (log': seq<Action>, c': Client)
    requires InLoop(env, max, batch, c0, log, c, taken, k) && c.current != [] && |taken| < max
    ensures Traced(c0, log', c') && (AllWork(env) ==> Smooth(log'))
    ensures c' == c.(pc := InHand(c.current[0]), current := c.current[1..], served := c.served + [c.current[0]],
                     wanted := c.wanted - 1)
    ensures c'.mode == (if batch then Batched else Immediate) && log' != [] && log'[0] == log[0]
    ensures Failures(log') == Failures(log)
  {
    hide Traced, Smooth, Failures, Stream, PushCount, Rest;
    log', c' := TakenOne(c0, log, c);
  }

  /** Once it is confirmed, the loops go on with the rest of the event. */
  lemma ConfirmedInLoop(env: Env, max: nat, batch: bool, c0: Client, log: seq<Action>, c: Client,
                        taken: seq<Message>, k: nat, log': seq<Action>, c': Client)
    requires InLoop(env, max, batch, c0, log, c, taken, k) && c.current != [] && |taken| < max
    requires Traced(c0, log', c') && (AllWork(env) ==> Smooth(log')) && log' != [] && log'[0] == log[0]
    requires c' == c.(pc := Receiving, current := c.current[1..], served := c.served + [c.current[0]],
                      wanted := c.wanted - 1,
                      confirmed := c'.confirmed, held := c'.held, givenUp := c'.givenUp, badFlushes := c'.badFlushes)
    ensures InLoop(env, max, batch, c0, log', c', taken + [c.current[0]], k)
  {
    hide Traced, Smooth, Stream, PushCount, Rest;
    assert taken + c.current == taken + [c.current[0]] + c.current[1..];
  }

  /** The inner loop: walk one event, returning and confirming messages up to the limit. */
  method WalkEvent(session: Session, builder: ConfirmEventBuilder, env: Env, messages: seq<Message>,
                   max: nat, soFar: nat, batch: bool,
                   ghost c0: Client, ghost log: seq<Action>, ghost c: Client, ghost taken: seq<Message>, ghost k: nat)
    returns (rows: seq<seq<bv8>>, warnings: nat,
             ghost taken': seq<Message>, ghost log': seq<Action>, ghost c': Client)
    requires soFar == |taken| < max && InLoop(env, max, batch, c0, log, c, taken, k) && c.current == messages
    requires session.confirmed == c.confirmed && builder.messages == c.held && (!batch ==> c.held == [])
    modifies session, builder
    ensures InLoop(env, max, batch, c0, log', c', taken', k) && |taken'| <= max
    ensures taken <= taken' && rows == Payloads(taken'[|taken|..])
    ensures |taken'| < max ==> c'.current == []
    ensures session.confirmed == c'.confirmed && builder.messages == c'.held && (!batch ==> c'.held == [])
    ensures Failures(log') == Failures(log) + warnings
  {
    hide Traced, Smooth, Failures, InLoop, AllWork, Exec, Enabled;
    rows, warnings, taken', log', c' := [], 0, taken, log, c;
    var received := soFar;
    var next := 0;   // the iterator
    while next < |messages|
      invariant 0 <= next <= |messages|
      invariant InLoop(env, max, batch, c0, log', c', taken', k)
      invariant received == |taken'| <= max && taken <= taken' && rows == Payloads(taken'[|taken|..])
      invariant c'.current == messages[next..]
      invariant session.confirmed == c'.confirmed && builder.messages == c'.held && (!batch ==> c'.held == [])
      invariant Failures(log') == Failures(log) + warnings
    {
      next := next + 1;          // nextMessage advances before the limit is tested
      if received >= max {
        break;
      }
      var m := messages[next - 1];
      rows := rows + [m.payload];
      ghost var log1, c1 := TakeInLoop(env, max, batch, c0, log', c', taken', k);
      var w;
      ghost var log2, c2;
      w, log2, c2 := ConfirmOne(session, builder, m, batch, env.outcome(received), c0, log1, c1);
      WorkingOutcome(env, received, log1, |c1.held|, batch);
      ConfirmedInLoop(env, max, batch, c0, log', c', taken', k, log2, c2);
      assert (taken' + [m])[|taken|..] == taken'[|taken|..] + [m];
      received, taken', log', c' := received + 1, taken' + [m], log2, c2;
      warnings := warnings + w;
    }
  }

  /** Nothing that confirms the message fails: the log stays without failures. */
  lemma WorkingOutcome(env: Env, n: nat, log: seq<Action>, held: nat, batch: bool)
    requires AllWork(env) ==> Smooth(log)
    ensures AllWork(env) ==> Smooth(log + ConfirmActions(held, batch, env.outcome(n)))
  {
    assert AllWork(env) ==> Works(env.outcome(n));
  }

  lemma StartInLoop(env: Env, c0: Client, max: nat, batch: bool) returns (log: seq<Action>, c: Client)
    requires Shape(c0) && c0.pc.Idle? && max >= 1
    ensures InLoop(env, max, batch, c0, log, c, [], 0)
    ensures c.current == [] && c.held == [] && c.confirmed == c0.confirmed && Failures(log) == 0
  {
    hide Traced, Smooth, Failures;
    log, c := Started(c0, max, batch);
  }

  /** A nextEvent that is not a PUSH leaves the loops where they were. */
  lemma OtherInLoop(env: Env, max: nat, batch: bool, c0: Client, log: seq<Action>, c: Client, taken: seq<Message>, k: nat)
    requires InLoop(env, max, batch, c0, log, c, taken, k) && !env.poll(k).Push?
    ensures InLoop(env, max, batch, c0, log, c, taken, k + 1)
  {
    hide Traced, Smooth;
    assert Stream(env.poll, k + 1) == Stream(env.poll, k) + [];
  }

  lemma PushInLoop(env: Env, max: nat, batch: bool, c0: Client, log: seq<Action>, c: Client, taken: seq<Message>, k: nat)
    returns (log': seq<Action>, c': Client)
    requires InLoop(env, max, batch, c0, log, c, taken, k) && env.poll(k).Push? && QueueFirst(c0.arrived, env.poll)
    requires c.current == [] && |taken| < max
    ensures InLoop(env, max, batch, c0, log', c', taken, k + 1)
    ensures c'.current == env.poll(k).messages && c'.confirmed == c.confirmed && c'.held == c.held
    ensures Failures(log') == Failures(log)
  {
    hide Traced, Smooth, Failures, QueueFirst, Rest;
    log', c' := Polled(c0.arrived, env.poll, k, c0, log, c);
  }

  lemma AllTaken(env: Env, max: nat, batch: bool, c0: Client, log: seq<Action>, c: Client, taken: seq<Message>, k: nat)
    requires InLoop(env, max, batch, c0, log, c, taken, k) && c.current == []
    ensures taken == Stream(env.poll, k)
  {
  }

  /** Leaving the loops: what the call has returned, and what it has passed over. */
  lemma EndInLoop(env: Env, max: nat, timeoutMs: int, horizon: nat, batch: bool,
                  c0: Client, log: seq<Action>, c: Client, taken: seq<Message>, k: nat)
    returns (log': seq<Action>, c': Client)
    requires InLoop(env, max, batch, c0, log, c, taken, k) && |taken| <= max && (|taken| < max ==> c.current == [])
    requires RemainingMs(env, timeoutMs, horizon) <= 0
    requires forall j :: 0 <= j < k ==> RemainingMs(env, timeoutMs, j) > 0
    requires |taken| == max || RemainingMs(env, timeoutMs, k) <= 0
    ensures Pulled(env, max, timeoutMs, horizon, batch, c0, log', c', taken, k)
    ensures c'.confirmed == c.confirmed + (if env.last then c.held else [])
    ensures Failures(log') == Failures(log) + (if c.held != [] && !env.last then 1 else 0)
  {
    hide Traced, Smooth, Failures, RemainingMs, PollLimit, Rest, PushCount;
    LimitAt(env, timeoutMs, horizon, k);
    StreamPrefix(env.poll, k, PollLimit(env, timeoutMs, horizon));
    log', c' := Finished(c0, log, c, env.last);
    assert Stream(env.poll, k)[|taken|..] == c.current;
  }

  /** Each wait is the whole milliseconds, at least one, that its reading leaves until the deadline. */
  ghost predicate WaitsUntil(env: Env, timeoutMs: int, waits: seq<int>) {
    forall i :: 0 <= i < |waits| ==>
      var left := env.clock(0) + timeoutMs * 1_000_000 - env.clock(i + 1);
      0 < waits[i] && waits[i] * 1_000_000 <= left < (waits[i] + 1) * 1_000_000
  }

  lemma WaitsFit(env: Env, timeoutMs: int, waits: seq<int>)
    requires forall j :: 0 <= j < |waits| ==> waits[j] == RemainingMs(env, timeoutMs, j) > 0
    ensures WaitsUntil(env, timeoutMs, waits)
  {
    hide RemainingMs;
    forall i | 0 <= i < |waits|
      ensures var left := env.clock(0) + timeoutMs * 1_000_000 - env.clock(i + 1);
              0 < waits[i] && waits[i] * 1_000_000 <= left < (waits[i] + 1) * 1_000_000
    {
      RemainingOnClock(env, timeoutMs, i);
    }
  }

  method BmqConsume(env: Env, session: Session, max: int, timeoutMs: int, batch: bool,
                    ghost c0: Client, ghost horizon: nat)
    returns (ok: bool, rows: seq<seq<bv8>>, waits: seq<int>, warnings: nat,
             ghost taken: seq<Message>, ghost log: seq<Action>, ghost c: Client)
    requires Shape(c0) && c0.pc.Idle? && session.confirmed == c0.confirmed && QueueFirst(c0.arrived, env.poll)
    requires timeoutMs >= 0 ==> RemainingMs(env, timeoutMs, horizon) <= 0
    modifies session
    ensures ok <==> max >= 1 && timeoutMs >= 0
    ensures !ok ==> c == c0
    ensures ok ==> Pulled(env, max, timeoutMs, horizon, batch, c0, log, c, taken, |waits|)
    ensures rows == Payloads(taken) && session.confirmed == c.confirmed
    ensures WaitsUntil(env, timeoutMs, waits)
    ensures ok ==> |taken| == max || env.clock(|waits| + 1) + 1_000_000 > env.clock(0) + timeoutMs * 1_000_000
    ensures |waits| > 0 ==> |Stream(env.poll, |waits| - 1)| < max
    ensures warnings == Failures(log) && (AllWork(env) ==> warnings == 0)
  {
    hide Failures, Stream, WaitsUntil, InLoop, Pulled, QueueFirst, Shape, AllWork, RemainingMs, PollLimit;
    NoFailures();
    WaitsFit(env, timeoutMs, []);
    rows, waits, warnings, taken, log, c := [], [], 0, [], [], c0;
    if max < 1 || timeoutMs < 0 {
      ok := false;
      return;
    }
    ok := true;
    var builder := new ConfirmEventBuilder();
    var received := 0;
    log, c := StartInLoop(env, c0, max, batch);

    while received < max
      invariant InLoop(env, max, batch, c0, log, c, taken, |waits|)
      invariant received == |taken| <= max && rows == Payloads(taken)
      invariant received < max ==> c.current == []
      invariant session.confirmed == c.confirmed && builder.messages == c.held && fresh(builder)
      invariant !batch ==> c.held == []
      invariant forall j :: 0 <= j < |waits| ==> waits[j] == RemainingMs(env, timeoutMs, j) > 0
      invariant |waits| > 0 ==> |Stream(env.poll, |waits| - 1)| < max
      invariant warnings == Failures(log)
      decreases horizon - |waits|
    {
      AllTaken(env, max, batch, c0, log, c, taken, |waits|);
      var remaining := RemainingMs(env, timeoutMs, |waits|);
      if remaining <= 0 {
        break;
      }
      var event := env.poll(|waits|);
      waits := waits + [remaining];
      LimitAt(env, timeoutMs, horizon, |waits|);
      if !event.Push? {
        OtherInLoop(env, max, batch, c0, log, c, taken, |waits| - 1);
        continue;
      }
      log, c := PushInLoop(env, max, batch, c0, log, c, taken, |waits| - 1);
      var more, w;
      ghost var taken';
      more, w, taken', log, c := WalkEvent(session, builder, env, event.messages, max, received, batch,
                                           c0, log, c, taken, |waits|);
      assert taken' == taken + taken'[|taken|..];
      rows, received, warnings, taken := rows + more, received + |more|, warnings + w, taken';
    }

    WaitsFit(env, timeoutMs, waits);
    RemainingOnClock(env, timeoutMs, |waits|);
    log, c := EndInLoop(env, max, timeoutMs, horizon, batch, c0, log, c, taken, |waits|);
    WorkingCall(env, max, timeoutMs, horizon, batch, c0, log, c, taken, |waits|);
    if batch && |builder.messages| > 0 {
      var flushed := session.ConfirmMessages(builder, env.last);
      if !flushed {
        warnings := warnings + 1;
      }
    }
  }

  lemma {:induction false} SmoothLog(log: seq<Action>)
    requires Smooth(log)
    ensures Failures(log) == 0
  {
    if log != [] {
      SmoothLog(log[..|log| - 1]);
      assert Faultless(log[|log| - 1]);
    }
  }

  lemma WorkingCall(env: Env, max: nat, timeoutMs: int, horizon: nat, batch: bool,
                    c0: Client, log: seq<Action>, c: Client, taken: seq<Message>, polls: nat)
    requires RemainingMs(env, timeoutMs, horizon) <= 0
    requires Pulled(env, max, timeoutMs, horizon, batch, c0, log, c, taken, polls)
    ensures AllWork(env) ==> Failures(log) == 0
  {
    hide Failures, RemainingMs, PollLimit, Stream, Traced;
    if AllWork(env) {
      SmoothLog(log);
    }
  }

  // ---- Batch mode refines immediate mode ----

  /**
   For the same clock and the same polled events, whatever the builder's limits, a batched and
   an immediate call return the same messages; and if no confirm of a call fails, it has
   confirmed just these, in this order, by the time it returns, whatever failed before it.
   */
  lemma BatchRefinesImmediate(e1: Env, e2: Env, max: nat, timeoutMs: int, horizon: nat, c0: Client,
                              log1: seq<Action>, b: Client, taken1: seq<Message>, polls1: nat,
                              log2: seq<Action>, i: Client, taken2: seq<Message>, polls2: nat)
    requires e1.clock == e2.clock && e1.poll == e2.poll && RemainingMs(e1, timeoutMs, horizon) <= 0
    requires Inv(FLUSH_THRESHOLD, c0) && c0.pc.Idle?
    requires Pulled(e1, max, timeoutMs, horizon, true, c0, log1, b, taken1, polls1)
    requires RemainingMs(e2, timeoutMs, horizon) <= 0
    requires Pulled(e2, max, timeoutMs, horizon, false, c0, log2, i, taken2, polls2)
    ensures taken1 == taken2 && b.served == i.served
    ensures AllWork(e1) ==> b.confirmed == c0.confirmed + taken1
    ensures AllWork(e2) ==> i.confirmed == c0.confirmed + taken2
  {
    hide RemainingMs, Inv, AllWork, Smooth, Traced;
    SameLimit(e1, e2, timeoutMs, horizon, 0);
    if AllWork(e1) {
      ConfirmedByReturn(c0, log1, b);
    }
    if AllWork(e2) {
      ConfirmedByReturn(c0, log2, i);
    }
  }

  lemma {:induction false} SameLimit(e1: Env, e2: Env, timeoutMs: int, horizon: nat, k: nat)
    requires e1.clock == e2.clock && k <= horizon
    requires RemainingMs(e1, timeoutMs, horizon) <= 0 && RemainingMs(e2, timeoutMs, horizon) <= 0
    ensures PollLimit(e1, timeoutMs, horizon, k) == PollLimit(e2, timeoutMs, horizon, k)
    decreases horizon - k
  {
    if RemainingMs(e1, timeoutMs, k) > 0 {
      SameLimit(e1, e2, timeoutMs, horizon, k + 1);
    }
  }

  /** After a run without failures from one statement boundary to another. */
  lemma ConfirmedByReturn(c0: Client, log: seq<Action>, c: Client)
    requires Inv(FLUSH_THRESHOLD, c0) && c0.pc.Idle? && Traced(c0, log, c) && Smooth(log) && c.pc.Idle?
    ensures c0.served <= c.served && c.confirmed == c0.confirmed + c.served[|c0.served|..]
  {
    RunInv(FLUSH_THRESHOLD, c0, log);
    RunInOrder(FLUSH_THRESHOLD, c0, log);
    WindowSize(FLUSH_THRESHOLD, c);
  }

  // ---- What the caller gets ----

  /**
   What the method returns is what the books of the whole system record: after the call the
   process's returned rows have grown by exactly `taken`, and none of them is left in a tuplestore.
   */
  lemma BookedAsReturned(env: Env, max: nat, timeoutMs: int, horizon: nat, batch: bool,
                         c0: Client, log: seq<Action>, c: Client, taken: seq<Message>, polls: nat, tab: Calls.Tab)
    requires RemainingMs(env, timeoutMs, horizon) <= 0
    requires Pulled(env, max, timeoutMs, horizon, batch, c0, log, c, taken, polls)
    requires Inv(FLUSH_THRESHOLD, c0) && c0.pc.Idle? && Calls.TabInv(c0, tab)
    ensures Calls.TabAfter(c0, tab, log) == tab.(returned := tab.returned + taken)
  {
    hide RemainingMs, PollLimit, Stream, AllWork, Smooth, Inv;
    Calls.RowsReturned(c0, tab, log);
  }

  /**
   A call for queue `u` returns messages of `u` only, if between the calls nothing else was queued and no
   other open queue could deliver (`Queues.OwnQueueIff`: otherwise some call returns another queue's).
   */
  lemma CallOfQueue(env: Env, max: nat, timeoutMs: int, horizon: nat, batch: bool,
                    l: Flow.Link, log: seq<Action>, c: Client, taken: seq<Message>, polls: nat, u: Uri)
    requires RemainingMs(env, timeoutMs, horizon) <= 0
    requires Pulled(env, max, timeoutMs, horizon, batch, l.client, log, c, taken, polls)
    requires Flow.LInv(Flow.WINDOW, FLUSH_THRESHOLD, l) && l.client.pc.Idle?
    requires Flow.LValid(Flow.WINDOW, FLUSH_THRESHOLD, l, log) && Queues.OnlyQueue(Flow.WINDOW, l, u)
    ensures forall m :: m in taken ==> m.uri == u
  {
    hide RemainingMs, PollLimit, Stream, AllWork, Smooth, Inv, Flow.LInv, Flow.LValid, Flow.LRun, Queues.OnlyQueue;
    Flow.LRunClient(Flow.WINDOW, FLUSH_THRESHOLD, l, log);
    Flow.LRunInv(Flow.WINDOW, FLUSH_THRESHOLD, l, log);
    var k := Flow.LRun(Flow.WINDOW, FLUSH_THRESHOLD, l, log);
    Flow.ConfirmedOnce(Flow.WINDOW, FLUSH_THRESHOLD, k);
    forall m | m in taken ensures m.uri == u {
      InCopies(taken, m);
      InCopies(l.client.served, m);
      assert multiset(c.served)[m] == multiset(l.client.served)[m] + multiset(taken)[m];
      Queues.OnlyQueueServed(Flow.WINDOW, FLUSH_THRESHOLD, l, u, log, m);
    }
  }
}

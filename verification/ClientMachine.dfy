/**
 One client process as a labelled transition system, at the grain at which it can be killed.

 A pulling backend (`bmq_consume`, either confirm mode) and a subscriber worker
 (`bmq_subscriber_main`) share the machine: both read events from their one session, walk the
 messages of an event, produce an effect for a message, and then confirm it.
 */
module ClientMachine {
  import opened Messages

  datatype Mode =
    | Immediate    // bmq_consume, batch_confirm => false
    | Batched      // bmq_consume, batch_confirm => true
    | Subscriber   // bmq_subscriber_main

  datatype Pc =
    | Idle                    // a backend between two statements
    | Receiving               // in the receive loops with no message in hand
    | InHand(m: Message)      // m had its effect and is neither confirmed nor batched yet
    | Refused(m: Message)     // the confirm builder refused m
    | Retrying(m: Message)    // flushed after the refusal, about to add m again
    | FlushDue                // the builder has just reached the flush threshold
    | LastFlush               // the loops are over and the builder is not empty
    | Checking                // the worker is about to read its shutdown flag
    | InCallback(m: Message)  // the worker's transaction for m is open
    | Exiting                 // the worker has left its loop

  datatype Client = Client(
    pc: Pc,
    mode: Mode,
    wanted: nat,                   // max_messages - received
    shutdown: bool,                // ShutdownRequestPending
    arrived: seq<seq<Message>>,    // PUSH events the session holds and nextEvent has not returned
    current: seq<Message>,         // the part of the current event the iterator has not reached
    held: seq<Message>,            // the confirm builder
    // What has happened to this process, in order.
    delivered: seq<Message>,       // pushed to it
    served: seq<Message>,          // entered a tuplestore, or callback committed
    confirmed: seq<Message>,       // confirmed with success
    passed: seq<Message>,          // iterated past without effect: cut-off event rests, failed callbacks
    givenUp: seq<Message>,         // served, but its confirm was given up (WARNING or ERROR)
    badFlushes: nat                // failed confirmMessages calls in this statement
  )

  datatype Action =
    | Arrive(event: seq<Message>)
    | Begin(mode: Mode, max: nat)
    | Read
    | Take
    | AddOk
    | AddFull
    | Flush(ok: bool)
    | Retry(ok: bool)
    | Confirm(ok: bool)
    | End
    | Raise
    | Signal
    | Poll
    | Check
    | Commit
    | Abort

  /** kBatchConfirmFlushThreshold. */
  const FLUSH_THRESHOLD: nat := 500

  const NEW_BACKEND := Client(Idle, Immediate, 0, false, [], [], [], [], [], [], [], [], 0)
  const NEW_WORKER := NEW_BACKEND.(pc := Checking, mode := Subscriber)

  function Hand(pc: Pc): seq<Message> {
    if pc.InHand? || pc.Refused? || pc.Retrying? then [pc.m] else []
  }

  function Callback(pc: Pc): seq<Message> {
    if pc.InCallback? then [pc.m] else []
  }

  predicate Enabled(c: Client, a: Action) {
    match a
    case Arrive(_) => true
    case Begin(mode, max) => c.pc.Idle? && !mode.Subscriber? && max >= 1
    case Read => c.pc.Receiving? && c.current == [] && c.arrived != [] && (c.mode.Subscriber? || c.wanted > 0)
    case Take => c.pc.Receiving? && c.current != [] && (c.mode.Subscriber? || c.wanted > 0)
    case AddOk => c.mode.Batched? && c.pc.InHand?
    case AddFull => c.mode.Batched? && c.pc.InHand?
    case Flush(_) => c.pc.FlushDue? || c.pc.Refused? || c.pc.LastFlush?
    case Retry(_) => c.pc.Retrying?
    case Confirm(_) => !c.mode.Batched? && c.pc.InHand?
    case End => !c.mode.Subscriber? && c.pc.Receiving? && (c.current == [] || c.wanted == 0)
    case Raise => !c.mode.Subscriber? && !c.pc.Idle?
    case Signal => c.mode.Subscriber?
    case Poll => c.mode.Subscriber? && c.pc.Receiving? && c.current == []
    case Check => c.pc.Checking?
    case Commit => c.pc.InCallback?
    case Abort => c.pc.InCallback?
  }

  /** The messages whose confirmation an action gets accepted. */
  function Accepted(c: Client, a: Action): seq<Message> {
    if a == Flush(true) then c.held
    else if a == Confirm(true) then Hand(c.pc)
    else []
  }

  function AfterMessage(c: Client): Pc {
    if c.mode.Subscriber? then Checking else Receiving
  }

  /** One step; `t` is the flush threshold. */
  function Exec(t: nat, c: Client, a: Action): Client
    requires Enabled(c, a)
  {
    match a
    case Arrive(e) => c.(arrived := c.arrived + [e], delivered := c.delivered + e)
    case Begin(mode, max) => c.(pc := Receiving, mode := mode, wanted := max, badFlushes := 0)
    case Read => c.(arrived := c.arrived[1..], current := c.arrived[0])
    case Take =>
      var m := c.current[0];
      if c.mode.Subscriber? then c.(pc := InCallback(m), current := c.current[1..])
      else c.(pc := InHand(m), current := c.current[1..], served := c.served + [m], wanted := c.wanted - 1)
    case AddOk =>
      var held := c.held + [c.pc.m];
      c.(pc := if |held| >= t then FlushDue else Receiving, held := held)
    case AddFull => c.(pc := Refused(c.pc.m))
    case Flush(ok) =>
      var next := if c.pc.Refused? then Retrying(c.pc.m) else if c.pc.FlushDue? then Receiving else Idle;
      if ok then c.(pc := next, confirmed := c.confirmed + c.held, held := [])
      else if c.pc.LastFlush? then
        c.(pc := next, givenUp := c.givenUp + c.held, held := [], badFlushes := c.badFlushes + 1)
      else c.(pc := next, badFlushes := c.badFlushes + 1)
    case Retry(ok) =>
      if ok then c.(pc := Receiving, held := c.held + [c.pc.m])
      else c.(pc := Receiving, givenUp := c.givenUp + [c.pc.m])
    case Confirm(ok) =>
      if ok then c.(pc := AfterMessage(c), confirmed := c.confirmed + [c.pc.m])
      else c.(pc := AfterMessage(c), givenUp := c.givenUp + [c.pc.m])
    case End =>
      c.(pc := if c.held != [] then LastFlush else Idle, passed := c.passed + c.current, current := [])
    case Raise =>
      c.(pc := Idle, givenUp := c.givenUp + c.held + Hand(c.pc), held := [],
         passed := c.passed + c.current, current := [])
    case Signal => c.(shutdown := true)
    case Poll => c.(pc := Checking)
    case Check => c.(pc := if c.shutdown then Exiting else Receiving)
    case Commit => c.(pc := InHand(c.pc.m), served := c.served + [c.pc.m])
    case Abort => c.(pc := Checking, passed := c.passed + [c.pc.m])
  }

  predicate Valid(t: nat, c: Client, acts: seq<Action>)
    decreases |acts|, 0
  {
    acts == [] ||
    (Valid(t, c, acts[..|acts| - 1]) && Enabled(Run(t, c, acts[..|acts| - 1]), acts[|acts| - 1]))
  }

  function Run(t: nat, c: Client, acts: seq<Action>): Client
    requires Valid(t, c, acts)
    decreases |acts|, 1
  {
    if acts == [] then c
    else Exec(t, Run(t, c, acts[..|acts| - 1]), acts[|acts| - 1])
  }

  lemma RunSnoc(t: nat, c: Client, acts: seq<Action>, a: Action)
    requires Valid(t, c, acts) && Enabled(Run(t, c, acts), a)
    ensures Valid(t, c, acts + [a]) && Run(t, c, acts + [a]) == Exec(t, Run(t, c, acts), a)
  {
    assert (acts + [a])[..|acts + [a]| - 1] == acts;
  }

  lemma {:induction false} RunAppend(t: nat, c: Client, xs: seq<Action>, ys: seq<Action>)
    requires Valid(t, c, xs) && Valid(t, Run(t, c, xs), ys)
    ensures Valid(t, c, xs + ys) && Run(t, c, xs + ys) == Run(t, Run(t, c, xs), ys)
  {
    hide Exec, Enabled;
    if ys == [] {
      assert xs + ys == xs;
    } else {
      var front, a := ys[..|ys| - 1], ys[|ys| - 1];
      RunAppend(t, c, xs, front);
      RunSnoc(t, c, xs + front, a);
      assert xs + ys == xs + front + [a];
    }
  }

  // ---- Accounting ----

  /** Every delivered message is in exactly one place on the way to its effect. */
  ghost predicate DeliveryAccount(c: Client) {
    multiset(c.delivered) ==
    multiset(c.served) + multiset(c.passed) + multiset(Callback(c.pc)) + multiset(c.current) + multiset(Flat(c.arrived))
  }

  /** As long as nothing was passed over, effects happen in delivery order. */
  ghost predicate EffectOrder(c: Client) {
    c.passed == [] ==> c.delivered == c.served + Callback(c.pc) + c.current + Flat(c.arrived)
  }

  /** Every served message is in exactly one place on the way to its confirm. */
  ghost predicate ConfirmAccount(c: Client) {
    multiset(c.served) ==
    multiset(c.confirmed) + multiset(c.held) + multiset(Hand(c.pc)) + multiset(c.givenUp)
  }

  /** As long as no confirm was given up, confirms happen in the order of the effects. */
  ghost predicate ConfirmOrder(c: Client) {
    c.givenUp == [] ==> c.served == c.confirmed + c.held + Hand(c.pc)
  }

  /** What the builder holds: each failed flush of the statement lets it grow by one message. */
  ghost predicate BuilderBound(t: nat, c: Client) {
    && (c.pc.FlushDue? ==> t <= |c.held| <= t + c.badFlushes)
    && (!c.pc.FlushDue? ==> |c.held| < t + c.badFlushes)
    && (c.pc.Retrying? ==> |c.held| + 1 < t + c.badFlushes && (c.badFlushes == 0 ==> c.held == []))
  }

  ghost predicate Shape(c: Client) {
    && (c.pc.Refused? || c.pc.Retrying? || c.pc.FlushDue? || c.pc.LastFlush? ==> c.mode.Batched?)
    && (c.pc.Checking? || c.pc.InCallback? || c.pc.Exiting? ==> c.mode.Subscriber?)
    && (c.pc.Idle? ==> !c.mode.Subscriber? && c.current == [])
    && (c.pc.LastFlush? ==> c.current == [])
    && (c.pc.Idle? || !c.mode.Batched? ==> c.held == [])
  }

  ghost predicate Inv(t: nat, c: Client) {
    && Shape(c) && BuilderBound(t, c)
    && DeliveryAccount(c) && EffectOrder(c)
    && ConfirmAccount(c) && ConfirmOrder(c)
  }

  lemma ArriveKeepsDelivery(t: nat, c: Client, event: seq<Message>)
    requires DeliveryAccount(c) && EffectOrder(c)
    ensures DeliveryAccount(Exec(t, c, Arrive(event))) && EffectOrder(Exec(t, c, Arrive(event)))
  {
    hide Callback;
    FlatAppend(c.arrived, event);
  }

  lemma ReadKeepsDelivery(t: nat, c: Client)
    requires DeliveryAccount(c) && EffectOrder(c) && Enabled(c, Read)
    ensures DeliveryAccount(Exec(t, c, Read)) && EffectOrder(Exec(t, c, Read))
  {
    FlatHead(c.arrived);
  }

  lemma TakeKeepsDeliveryAccount(t: nat, c: Client)
    requires DeliveryAccount(c) && Enabled(c, Take)
    ensures DeliveryAccount(Exec(t, c, Take))
  {
    hide Flat;
    var m, rest := c.current[0], c.current[1..];
    assert c.current == [m] + rest;
    assert multiset(c.current) == multiset{m} + multiset(rest);
  }

  lemma TakeKeepsEffectOrder(t: nat, c: Client)
    requires EffectOrder(c) && Enabled(c, Take)
    ensures EffectOrder(Exec(t, c, Take))
  {
    hide Flat;
    assert c.current == [c.current[0]] + c.current[1..];
  }

  lemma ReceiveKeepsConfirmAccount(t: nat, c: Client, a: Action)
    requires a.Arrive? || a.Read? || a.Take?
    requires Shape(c) && ConfirmAccount(c) && Enabled(c, a)
    ensures ConfirmAccount(Exec(t, c, a))
  {
  }

  lemma AddKeepsDeliveryAccount(t: nat, c: Client, a: Action)
    requires a.AddOk? || a.AddFull?
    requires Shape(c) && DeliveryAccount(c) && Enabled(c, a)
    ensures DeliveryAccount(Exec(t, c, a))
  {
  }

  lemma AddKeepsConfirmAccount(t: nat, c: Client, a: Action)
    requires a.AddOk? || a.AddFull?
    requires Shape(c) && ConfirmAccount(c) && Enabled(c, a)
    ensures ConfirmAccount(Exec(t, c, a))
  {
  }

  lemma RetryKeepsDeliveryAccount(t: nat, c: Client, a: Action)
    requires a.Retry?
    requires Shape(c) && DeliveryAccount(c) && Enabled(c, a)
    ensures DeliveryAccount(Exec(t, c, a))
  {
  }

  lemma RetryKeepsConfirmAccount(t: nat, c: Client, a: Action)
    requires a.Retry?
    requires Shape(c) && ConfirmAccount(c) && Enabled(c, a)
    ensures ConfirmAccount(Exec(t, c, a))
  {
  }

  lemma ConfirmKeepsDeliveryAccount(t: nat, c: Client, a: Action)
    requires a.Confirm?
    requires Shape(c) && DeliveryAccount(c) && Enabled(c, a)
    ensures DeliveryAccount(Exec(t, c, a))
  {
  }

  lemma ConfirmKeepsConfirmAccount(t: nat, c: Client, a: Action)
    requires a.Confirm?
    requires Shape(c) && ConfirmAccount(c) && Enabled(c, a)
    ensures ConfirmAccount(Exec(t, c, a))
  {
  }

  lemma FlushKeepsDeliveryAccount(t: nat, c: Client, a: Action)
    requires a.Flush?
    requires Shape(c) && DeliveryAccount(c) && Enabled(c, a)
    ensures DeliveryAccount(Exec(t, c, a))
  {
  }

  lemma FlushKeepsConfirmAccount(t: nat, c: Client, a: Action)
    requires a.Flush?
    requires Shape(c) && ConfirmAccount(c) && Enabled(c, a)
    ensures ConfirmAccount(Exec(t, c, a))
  {
  }

  lemma LeaveKeepsDeliveryAccount(t: nat, c: Client, a: Action)
    requires a.Begin? || a.End? || a.Raise?
    requires Shape(c) && DeliveryAccount(c) && Enabled(c, a)
    ensures DeliveryAccount(Exec(t, c, a))
  {
  }

  lemma LeaveKeepsConfirmAccount(t: nat, c: Client, a: Action)
    requires a.Begin? || a.End? || a.Raise?
    requires Shape(c) && ConfirmAccount(c) && Enabled(c, a)
    ensures ConfirmAccount(Exec(t, c, a))
  {
  }

  lemma WorkKeepsDeliveryAccount(t: nat, c: Client, a: Action)
    requires a.Signal? || a.Poll? || a.Check? || a.Commit? || a.Abort?
    requires Shape(c) && DeliveryAccount(c) && Enabled(c, a)
    ensures DeliveryAccount(Exec(t, c, a))
  {
  }

  lemma WorkKeepsConfirmAccount(t: nat, c: Client, a: Action)
    requires a.Signal? || a.Poll? || a.Check? || a.Commit? || a.Abort?
    requires Shape(c) && ConfirmAccount(c) && Enabled(c, a)
    ensures ConfirmAccount(Exec(t, c, a))
  {
  }

  lemma StepKeepsEffectOrder(t: nat, c: Client, a: Action)
    requires !a.Arrive? && !a.Read? && !a.Take?
    requires Shape(c) && EffectOrder(c) && Enabled(c, a)
    ensures EffectOrder(Exec(t, c, a))
  {
    hide Flat;
  }

  lemma StepKeepsConfirmOrder(t: nat, c: Client, a: Action)
    requires Shape(c) && ConfirmOrder(c) && Enabled(c, a)
    ensures ConfirmOrder(Exec(t, c, a))
  {
  }

  lemma StepKeepsShape(t: nat, c: Client, a: Action)
    requires t >= 2 && Shape(c) && BuilderBound(t, c) && Enabled(c, a)
    ensures Shape(Exec(t, c, a)) && BuilderBound(t, Exec(t, c, a))
  {
  }

  lemma StepInv(t: nat, c: Client, a: Action)
    requires t >= 2 && Inv(t, c) && Enabled(c, a)
    ensures Inv(t, Exec(t, c, a))
  {
    hide Shape, BuilderBound, DeliveryAccount, EffectOrder, ConfirmAccount, ConfirmOrder, Exec, Enabled;
    StepKeepsShape(t, c, a);
    StepKeepsConfirmOrder(t, c, a);
    if a.Arrive? {
      ArriveKeepsDelivery(t, c, a.event);
      ReceiveKeepsConfirmAccount(t, c, a);
      return;
    } else if a.Read? {
      ReadKeepsDelivery(t, c);
      ReceiveKeepsConfirmAccount(t, c, a);
      return;
    } else if a.Take? {
      TakeKeepsDeliveryAccount(t, c);
      TakeKeepsEffectOrder(t, c);
      ReceiveKeepsConfirmAccount(t, c, a);
      return;
    }
    StepKeepsEffectOrder(t, c, a);
    if a.AddOk? || a.AddFull? {
      AddKeepsDeliveryAccount(t, c, a);
      AddKeepsConfirmAccount(t, c, a);
    } else if a.Retry? {
      RetryKeepsDeliveryAccount(t, c, a);
      RetryKeepsConfirmAccount(t, c, a);
    } else if a.Confirm? {
      ConfirmKeepsDeliveryAccount(t, c, a);
      ConfirmKeepsConfirmAccount(t, c, a);
    } else if a.Flush? {
      FlushKeepsDeliveryAccount(t, c, a);
      FlushKeepsConfirmAccount(t, c, a);
    } else if a.Begin? || a.End? || a.Raise? {
      LeaveKeepsDeliveryAccount(t, c, a);
      LeaveKeepsConfirmAccount(t, c, a);
    } else {
      WorkKeepsDeliveryAccount(t, c, a);
      WorkKeepsConfirmAccount(t, c, a);
    }
  }

  lemma {:induction false} RunInv(t: nat, c: Client, acts: seq<Action>)
    requires t >= 2 && Inv(t, c) && Valid(t, c, acts)
    ensures Inv(t, Run(t, c, acts))
  {
    if acts != [] {
      RunInv(t, c, acts[..|acts| - 1]);
      StepInv(t, Run(t, c, acts[..|acts| - 1]), acts[|acts| - 1]);
    }
  }

  // ---- What a crash can cost ----

  /** An action in which no session or builder call fails and no exception is thrown. */
  predicate Faultless(a: Action) {
    match a
    case Flush(ok) => ok
    case Retry(ok) => ok
    case Confirm(ok) => ok
    case Raise => false
    case _ => true
  }

  lemma {:induction false} FaultlessRun(t: nat, c: Client, acts: seq<Action>)
    requires Valid(t, c, acts)
    requires forall a :: a in acts ==> Faultless(a)
    ensures Run(t, c, acts).givenUp == c.givenUp
    ensures c.badFlushes == 0 ==> Run(t, c, acts).badFlushes == 0
  {
    if acts != [] {
      FaultlessRun(t, c, acts[..|acts| - 1]);
      assert Faultless(acts[|acts| - 1]);
    }
  }

  /** Between two statements, or between two callbacks. */
  predicate Between(c: Client) {
    c.pc.Idle? || c.pc.Checking?
  }

  /** What was served since `c0` is what was confirmed since then, then the builder, then the message in hand. */
  ghost predicate InOrderSince(c0: Client, c: Client) {
    && c0.served <= c.served && c0.confirmed <= c.confirmed
    && c.served[|c0.served|..] == c.confirmed[|c0.confirmed|..] + c.held + Hand(c.pc)
  }

  ghost predicate FlushesGood(c: Client) {
    c.pc.Idle? || !c.mode.Batched? || c.badFlushes == 0
  }

  lemma StepInOrder(t: nat, c0: Client, c: Client, a: Action)
    requires Shape(c) && Enabled(c, a) && Faultless(a) && InOrderSince(c0, c)
    ensures InOrderSince(c0, Exec(t, c, a))
  {
  }

  lemma StepFlushesGood(t: nat, c: Client, a: Action)
    requires Shape(c) && Enabled(c, a) && Faultless(a) && FlushesGood(c)
    ensures FlushesGood(Exec(t, c, a))
  {
  }

  /** Runs in which no confirm fails, from any point between statements, whatever failed before it. */
  lemma {:induction false} RunInOrder(t: nat, c0: Client, acts: seq<Action>)
    requires t >= 2 && Inv(t, c0) && Between(c0) && Valid(t, c0, acts)
    requires forall a :: a in acts ==> Faultless(a)
    ensures InOrderSince(c0, Run(t, c0, acts)) && FlushesGood(Run(t, c0, acts))
  {
    if acts != [] {
      var front, a := acts[..|acts| - 1], acts[|acts| - 1];
      RunInOrder(t, c0, front);
      RunInv(t, c0, front);
      hide InOrderSince, FlushesGood, Exec, Enabled;
      StepInOrder(t, c0, Run(t, c0, front), a);
      StepFlushesGood(t, Run(t, c0, front), a);
    }
  }

  /**
   The redelivery window. Take any point between two statements (or callbacks) of a process,
   whatever failed before it. As long as confirm calls succeed from there on, at every later
   point, also in the middle of a statement, what was confirmed since then is a prefix of what was
   served since then, and at most `t` (batched) or one (otherwise) of those served messages would
   come back if the process died, however many messages each statement asked for.
   */
  lemma RedeliveryWindow(t: nat, c0: Client, acts: seq<Action>)
    requires t >= 2 && Inv(t, c0) && Between(c0) && Valid(t, c0, acts)
    requires forall a :: a in acts ==> Faultless(a)
    ensures var c := Run(t, c0, acts);
            && c0.served <= c.served && c0.confirmed <= c.confirmed
            && var served, confirmed := c.served[|c0.served|..], c.confirmed[|c0.confirmed|..];
               && confirmed <= served
               && |served| - |confirmed| <= (if c.mode.Batched? then t else 1)
  {
    hide Run, Valid, Exec, Enabled;
    RunInv(t, c0, acts);
    RunInOrder(t, c0, acts);
    WindowSize(t, Run(t, c0, acts));
  }

  lemma WindowSize(t: nat, c: Client)
    requires Shape(c) && BuilderBound(t, c)
    ensures |c.held| + |Hand(c.pc)| <= (if c.mode.Batched? then t + c.badFlushes else 1)
    ensures c.pc.Idle? ==> c.held == [] && Hand(c.pc) == []
  {
  }

  /** A new process is such a point. */
  lemma NewInv(t: nat, start: Client)
    requires t >= 1 && start in {NEW_BACKEND, NEW_WORKER}
    ensures Inv(t, start) && Between(start)
  {
  }

  /**
   The same count with nothing assumed of the confirm calls: the served and unconfirmed messages
   are those given up with a WARNING and those in the window, which each failed flush of the
   statement widens by one.
   */
  lemma UnconfirmedCount(t: nat, c: Client)
    requires Inv(t, c)
    ensures |c.served| == |c.confirmed| + |c.held| + |Hand(c.pc)| + |c.givenUp|
    ensures |c.served| - |c.confirmed| - |c.givenUp| <= (if c.mode.Batched? then t + c.badFlushes else 1)
  {
    assert |multiset(c.served)| == |c.served|;
    WindowSize(t, c);
  }

  /** The actions that push, read, return and batch the given messages one event at a time. */
  function Feed(ms: seq<Message>): seq<Action> {
    if ms == [] then [] else Feed(ms[..|ms| - 1]) + [Arrive([ms[|ms| - 1]]), Read, Take, AddOk]
  }

  ghost predicate Ready(c: Client) {
    c.pc.Receiving? && c.mode.Batched? && c.current == [] && c.arrived == []
  }

  lemma TwoSteps(t: nat, c: Client, a: Action, b: Action)
    requires Enabled(c, a) && Enabled(Exec(t, c, a), b)
    ensures Valid(t, c, [a, b]) && Run(t, c, [a, b]) == Exec(t, Exec(t, c, a), b)
  {
    hide Exec, Enabled;
    RunSnoc(t, c, [], a);
    assert [] + [a] == [a];
    assert [a] + [b] == [a, b];
    RunSnoc(t, c, [a], b);
  }

  lemma FeedOne(t: nat, c: Client, m: Message)
    requires Ready(c) && c.wanted >= 1
    ensures Valid(t, c, Feed([m]))
    ensures Run(t, c, Feed([m])) ==
            c.(delivered := c.delivered + [m], served := c.served + [m], held := c.held + [m],
               wanted := c.wanted - 1, pc := if |c.held| + 1 >= t then FlushDue else Receiving)
  {
    assert Feed([m]) == [Arrive([m]), Read] + [Take, AddOk];
    hide Valid, Run, Feed, Flat;
    TwoSteps(t, c, Arrive([m]), Read);
    var d := Run(t, c, [Arrive([m]), Read]);
    assert d == c.(delivered := c.delivered + [m], current := [m]);
    TwoSteps(t, d, Take, AddOk);
    RunAppend(t, c, [Arrive([m]), Read], [Take, AddOk]);
  }

  lemma {:induction false} FeedRun(t: nat, c: Client, ms: seq<Message>)
    requires Ready(c) && c.wanted >= |ms| && |c.held| + |ms| < t
    ensures Valid(t, c, Feed(ms))
    ensures Run(t, c, Feed(ms)) ==
            c.(delivered := c.delivered + ms, served := c.served + ms, held := c.held + ms, wanted := c.wanted - |ms|)
  {
    hide Exec, Enabled, Flat;
    if ms != [] {
      var front, m := ms[..|ms| - 1], ms[|ms| - 1];
      FeedRun(t, c, front);
      FeedOne(t, Run(t, c, Feed(front)), m);
      FeedSplit(front, m);
      RunAppend(t, c, Feed(front), Feed([m]));
      assert ms == front + [m];
    }
  }

  lemma FeedSplit(ms: seq<Message>, m: Message)
    ensures Feed(ms + [m]) == Feed(ms) + Feed([m])
  {
    assert (ms + [m])[..|ms + [m]| - 1] == ms;
  }

  lemma {:induction false} FeedFaultless(ms: seq<Message>)
    ensures forall a :: a in Feed(ms) ==> Faultless(a) && !a.Begin? && !a.End?
  {
    if ms != [] {
      FeedFaultless(ms[..|ms| - 1]);
    }
  }

  /** The batched window is exact: any `t` messages can all be served and unconfirmed at once. */
  lemma RedeliveryWindowTight(t: nat, ms: seq<Message>)
    requires t >= 2 && |ms| == t
    ensures var acts := [Begin(Batched, t)] + Feed(ms);
            && (forall a :: a in acts ==> Faultless(a))
            && Valid(t, NEW_BACKEND, acts)
            && Run(t, NEW_BACKEND, acts).served == ms && Run(t, NEW_BACKEND, acts).confirmed == []
  {
    hide Exec, Feed;
    FeedFaultless(ms);
    var begin := [Begin(Batched, t)];
    var c := BeginRun(t, NEW_BACKEND, t);
    var front, m := ms[..t - 1], ms[t - 1];
    FeedRun(t, c, front);
    FeedOne(t, Run(t, c, Feed(front)), m);
    FeedSplit(front, m);
    assert ms == front + [m];
    RunAppend(t, c, Feed(front), Feed([m]));
    RunAppend(t, NEW_BACKEND, begin, Feed(ms));
  }

  lemma OneStep(t: nat, c: Client, a: Action)
    requires Enabled(c, a)
    ensures Valid(t, c, [a]) && Run(t, c, [a]) == Exec(t, c, a)
  {
    hide Exec, Enabled;
    RunSnoc(t, c, [], a);
    assert [] + [a] == [a];
  }

  lemma BeginRun(t: nat, c: Client, max: nat) returns (d: Client)
    requires c.pc.Idle? && max >= 1
    ensures Valid(t, c, [Begin(Batched, max)]) && d == Run(t, c, [Begin(Batched, max)])
    ensures d == c.(pc := Receiving, mode := Batched, wanted := max, badFlushes := 0)
  {
    hide Run, Valid;
    OneStep(t, c, Begin(Batched, max));
    d := Run(t, c, [Begin(Batched, max)]);
  }
}

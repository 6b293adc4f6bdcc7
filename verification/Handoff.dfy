/**
 The handoff from bmq_subscribe to its background worker through a pinned shared segment, as
 two processes whose steps interleave freely.

 Guards say only where each process is in its own code; that the segment is there when it is
 used is proved, not assumed.
 */
module Handoff {

  /** sizeof(SubscriberConfig::queue_uri) and of subscription_expr. */
  const FIELD: nat := 512

  const READY_TIMEOUT_US: nat := 5_000_000
  const POLL_INTERVAL_US: nat := 20_000

  datatype CallerPc =
    | Validating
    | Creating
    | Writing
    | Pinning
    | Registering
    | AwaitingStart
    | Polling
    | Looking                  // the read of ready after the loop
    | Leaving(warned: bool)    // about to detach and return the pid
    | Failing                  // about to detach and raise the ERROR
    | Returned(warned: bool)
    | Refused                  // ERROR before the segment exists
    | Errored                  // ERROR after detaching
    | CallerDead               // killed

  datatype WorkerPc =
    | Absent
    | Registered
    | Started
    | Attached
    | Copied
    | Connected
    | Open                     // get_queue has succeeded
    | Flagged                  // ready is set
    | Running                  // detached, in the message loop
    | Catching(detached: bool) // in the exception handler
    | Exited
    | NeverStarted             // registered, but not started: no fork, or no postmaster any more
    | WorkerDead               // FATAL, or killed

  datatype Strings = Strings(uri: string, expr: string)

  datatype Segment = Segment(alive: bool, pinned: bool, uri: string, expr: string, ready: nat)

  datatype State = State(
    config: Strings,             // the caller's arguments
    caller: CallerPc,
    worker: WorkerPc,
    segment: Segment,
    callerAttached: bool,
    workerAttached: bool,
    callerDetaches: nat,         // dsm_detach calls made
    workerDetaches: nat,
    copy: Strings,               // the worker's own copies
    queueOpen: bool,             // the worker's get_queue has succeeded
    waitedUs: nat
  )

  datatype Step =
    // the caller
    | Validate
    | Create(garbage: Segment)
    | Write
    | Pin
    | Register(ok: bool)
    | AwaitStart(ok: bool)
    | PollReady
    | LookReady
    | CallerDetach
    | CallerDie
    // the worker
    | Start
    | StartFails
    | Attach
    | CopyOut
    | Connect(ok: bool)
    | GetQueue(ok: bool)
    | SetReady
    | WorkerDetach
    | Throw
    | CatchDetach
    | Exit
    | WorkerDie

  // ---- C strings in fixed-size fields ----

  /** The characters before the first NUL. */
  function CStr(s: string): string {
    if s == "" || s[0] == '\0' then "" else [s[0]] + CStr(s[1..])
  }

  /** strcpy of s.c_str() into a field. */
  function StrCpy(field: string, s: string): string
    requires |field| == FIELD && |s| < FIELD
  {
    var t := CStr(s);
    CStrShort(s);
    t + ['\0'] + field[|t| + 1..]
  }

  lemma {:induction false} CStrShort(s: string)
    ensures |CStr(s)| <= |s| && '\0' !in CStr(s)
  {
    if s != "" && s[0] != '\0' {
      CStrShort(s[1..]);
    }
  }

  lemma {:induction false} CStrOf(t: string, rest: string)
    requires '\0' !in t
    ensures CStr(t + ['\0'] + rest) == t
  {
    if t != "" {
      CStrOf(t[1..], rest);
      assert (t + ['\0'] + rest)[1..] == t[1..] + ['\0'] + rest;
    } else {
      assert t + ['\0'] + rest == ['\0'] + rest;
    }
  }

  lemma {:induction false} CStrWhole(s: string)
    ensures CStr(s) == s <==> '\0' !in s
  {
    if s != "" {
      CStrWhole(s[1..]);
      if s[0] != '\0' {
        assert s == [s[0]] + s[1..];
        assert CStr(s)[1..] == CStr(s[1..]);
      }
    }
  }

  /** What one process writes into a field the other reads back, exactly when it holds no NUL. */
  lemma FieldRoundTrip(field: string, s: string)
    requires |field| == FIELD && |s| < FIELD
    ensures |StrCpy(field, s)| == FIELD
    ensures CStr(StrCpy(field, s)) == CStr(s)
    ensures CStr(StrCpy(field, s)) == s <==> '\0' !in s
  {
    CStrShort(s);
    CStrOf(CStr(s), field[|CStr(s)| + 1..]);
    CStrWhole(s);
  }

  // ---- The two programs ----

  function Initial(config: Strings): State {
    State(config, Validating, Absent, Segment(false, false, "", "", 0), false, false, 0, 0, Strings("", ""), false, 0)
  }

  predicate Enabled(s: State, a: Step) {
    match a
    case Validate => s.caller.Validating?
    case Create(g) => s.caller.Creating? && |g.uri| == FIELD && |g.expr| == FIELD
    case Write => s.caller.Writing?
    case Pin => s.caller.Pinning?
    case Register(_) => s.caller.Registering?
    case AwaitStart(ok) => s.caller.AwaitingStart? && (if ok then WasStarted(s) else WorkerDone(s))
    case PollReady => s.caller.Polling?
    case LookReady => s.caller.Looking?
    case CallerDetach => s.caller.Leaving? || s.caller.Failing?
    case CallerDie => !CallerDone(s)
    case Start => s.worker.Registered?
    case StartFails => s.worker.Registered?
    case Attach => s.worker.Started?
    case CopyOut => s.worker.Attached?
    case Connect(_) => s.worker.Copied?
    case GetQueue(_) => s.worker.Connected?
    case SetReady => s.worker.Open?
    case WorkerDetach => s.worker.Flagged?
    case Throw => s.worker.Running?
    case CatchDetach => s.worker.Catching?
    case Exit => s.worker.Running?
    case WorkerDie => WasStarted(s) && !WorkerDone(s)
  }

  predicate CallerDone(s: State) {
    s.caller.Returned? || s.caller.Refused? || s.caller.Errored? || s.caller.CallerDead?
  }

  predicate WorkerDone(s: State) {
    s.worker.Exited? || s.worker.NeverStarted? || s.worker.WorkerDead?
  }

  predicate WasStarted(s: State) {
    !s.worker.Absent? && !s.worker.Registered? && !s.worker.NeverStarted?
  }

  /** The segment after one side is gone: destroyed once nobody is attached, unless pinned. */
  function Unmapped(g: Segment, otherAttached: bool): Segment {
    g.(alive := g.alive && (g.pinned || otherAttached))
  }

  function CallerGone(s: State, explicit: bool, pc: CallerPc): State {
    s.(caller := pc, callerAttached := false, segment := Unmapped(s.segment, s.workerAttached),
       callerDetaches := s.callerDetaches + (if explicit then 1 else 0))
  }

  function WorkerGone(s: State, explicit: bool, pc: WorkerPc): State {
    s.(worker := pc, workerAttached := false, segment := Unmapped(s.segment, s.callerAttached),
       workerDetaches := s.workerDetaches + (if explicit then 1 else 0))
  }

  /** strcpy into the segment's field, whatever its size. */
  function Store(field: string, s: string): string {
    if |field| == FIELD && |s| < FIELD then StrCpy(field, s) else field
  }

  function Exec(s: State, a: Step): State {
    var g := s.segment;
    match a
    case Validate => s.(caller := if |s.config.uri| >= FIELD || |s.config.expr| >= FIELD then Refused else Creating)
    case Create(garbage) =>
      s.(caller := Writing, callerAttached := true, segment := garbage.(alive := true, pinned := false))
    case Write =>
      s.(caller := Pinning, segment := g.(uri := Store(g.uri, s.config.uri), expr := Store(g.expr, s.config.expr), ready := 0))
    case Pin => s.(caller := Registering, segment := g.(pinned := true))
    case Register(ok) =>
      s.(caller := if ok then AwaitingStart else Failing, worker := if ok then Registered else s.worker)
    case AwaitStart(ok) => s.(caller := if ok then Polling else Failing)
    case PollReady =>
      if g.ready == 0 && s.waitedUs < READY_TIMEOUT_US then s.(waitedUs := s.waitedUs + POLL_INTERVAL_US)
      else s.(caller := Looking)
    case LookReady => s.(caller := Leaving(g.ready == 0))
    case CallerDetach => CallerGone(s, true, if s.caller.Leaving? then Returned(s.caller.warned) else Errored)
    case CallerDie => CallerGone(s, false, CallerDead)
    case Start => s.(worker := Started)
    case StartFails => s.(worker := NeverStarted)
    case Attach => if g.alive then s.(worker := Attached, workerAttached := true) else s.(worker := WorkerDead)
    case CopyOut => s.(worker := Copied, copy := Strings(CStr(g.uri), CStr(g.expr)))
    case Connect(ok) => if ok then s.(worker := Connected) else WorkerGone(s, false, WorkerDead)
    case GetQueue(ok) => if ok then s.(worker := Open, queueOpen := true) else s.(worker := Catching(false))
    case SetReady => s.(worker := Flagged, segment := g.(ready := 1))
    case WorkerDetach => WorkerGone(s, true, Running)
    case Throw => s.(worker := Catching(true))
    case CatchDetach =>
      if s.worker.Catching? && !s.worker.detached then WorkerGone(s, true, Exited) else s.(worker := Exited)
    case Exit => s.(worker := Exited)
    case WorkerDie => WorkerGone(s, false, WorkerDead)
  }

  /** The step reads or writes the segment, or detaches it, on the caller's side. */
  predicate CallerUses(s: State, a: Step) {
    a.Write? || a.Pin? || a.PollReady? || a.LookReady? || a.CallerDetach?
  }

  predicate WorkerUses(s: State, a: Step) {
    a.CopyOut? || a.SetReady? || a.WorkerDetach? || (a.CatchDetach? && s.worker.Catching? && !s.worker.detached)
  }

  ghost predicate Schedule(config: Strings, steps: seq<Step>)
    decreases |steps|, 0
  {
    steps == [] ||
    (Schedule(config, steps[..|steps| - 1]) && Enabled(Reached(config, steps[..|steps| - 1]), steps[|steps| - 1]))
  }

  ghost function Reached(config: Strings, steps: seq<Step>): State
    requires Schedule(config, steps)
    decreases |steps|, 1
  {
    if steps == [] then Initial(config)
    else Exec(Reached(config, steps[..|steps| - 1]), steps[|steps| - 1])
  }

  // ---- Invariants ----

  predicate CallerHolds(pc: CallerPc) {
    pc.Writing? || pc.Pinning? || pc.Registering? || pc.AwaitingStart? || pc.Polling? || pc.Looking? || pc.Leaving?
    || pc.Failing?
  }

  predicate WorkerHolds(pc: WorkerPc) {
    pc.Attached? || pc.Copied? || pc.Connected? || pc.Open? || pc.Flagged? || (pc.Catching? && !pc.detached)
  }

  predicate PastPin(pc: CallerPc) {
    pc.Registering? || pc.AwaitingStart? || pc.Polling? || pc.Looking? || pc.Leaving? || pc.Failing? || pc.Returned?
    || pc.Errored?
  }

  predicate BeforePin(pc: CallerPc) {
    pc.Validating? || pc.Creating? || pc.Writing? || pc.Pinning? || pc.Refused?
  }

  predicate BeforeRegistered(pc: CallerPc) {
    pc.Validating? || pc.Creating? || pc.Writing? || pc.Pinning? || pc.Registering?
  }

  predicate PastCopy(pc: WorkerPc) {
    pc.Copied? || pc.Connected? || pc.Open? || pc.Flagged? || pc.Running? || pc.Catching? || pc.Exited?
  }

  /** Attachments and detaches follow the program counters; the segment is alive exactly while pinned or attached. */
  ghost predicate Mapped(s: State) {
    && s.callerAttached == CallerHolds(s.caller)
    && s.workerAttached == WorkerHolds(s.worker)
    && s.callerDetaches == (if s.caller.Returned? || s.caller.Errored? then 1 else 0)
    && (s.worker.Running? || s.worker.Exited? || (s.worker.Catching? && s.worker.detached) ==> s.workerDetaches == 1)
    && (s.worker.Absent? || s.worker.Registered? || s.worker.Started? || s.worker.NeverStarted? || WorkerHolds(s.worker)
        ==> s.workerDetaches == 0)
    && s.workerDetaches <= 1
    && (s.segment.alive <==> s.segment.pinned || s.callerAttached || s.workerAttached)
    && (BeforePin(s.caller) ==> !s.segment.pinned)
    && (!s.worker.Absent? ==> s.segment.pinned)
    && (PastPin(s.caller) ==> s.segment.pinned)
    && (BeforeRegistered(s.caller) ==> s.worker.Absent?)
    && (s.caller.AwaitingStart? ==> !s.worker.Absent?)
  }

  /** The segment says what the caller wrote, and the worker copied that. */
  ghost predicate Written(s: State) {
    && (!s.caller.Validating? && !s.caller.Refused? && !s.caller.CallerDead? ==>
          |s.config.uri| < FIELD && |s.config.expr| < FIELD)
    && (s.caller.Writing? ==> |s.segment.uri| == FIELD && |s.segment.expr| == FIELD)
    && (s.segment.pinned || s.caller.Pinning? ==>
          CStr(s.segment.uri) == CStr(s.config.uri) && CStr(s.segment.expr) == CStr(s.config.expr))
    && (PastCopy(s.worker) ==> s.copy == Strings(CStr(s.config.uri), CStr(s.config.expr)))
  }

  /** ready is the worker's word that its queue is open. */
  ghost predicate Told(s: State) {
    && (s.caller.Pinning? || s.segment.pinned ==> s.segment.ready <= 1 && (s.segment.ready == 1 ==> s.queueOpen))
    && (s.worker.Open? || s.worker.Flagged? || s.worker.Running? ==> s.queueOpen)
    && (s.worker.Catching? ==> s.worker.detached == s.queueOpen)
    && (s.queueOpen ==> PastCopy(s.worker) || s.worker.WorkerDead?)
    && (s.worker.Copied? || s.worker.Connected? ==> !s.queueOpen)
    && (s.worker.Flagged? || s.worker.Running? || (s.worker.Exited? && s.queueOpen) ==> s.segment.ready == 1)
    && (s.worker.Catching? && s.worker.detached ==> s.segment.ready == 1)
    && (s.caller.Leaving? && !s.caller.warned ==> s.queueOpen)
    && (s.caller.Returned? && !s.caller.warned ==> s.queueOpen)
    && s.waitedUs <= READY_TIMEOUT_US && s.waitedUs % POLL_INTERVAL_US == 0
  }

  ghost predicate Inv(s: State) {
    Mapped(s) && Written(s) && Told(s)
  }

  lemma StepMapped(s: State, a: Step)
    requires Mapped(s) && Enabled(s, a)
    ensures Mapped(Exec(s, a))
  {
    hide CStr, Store;
  }

  lemma StepWritten(s: State, a: Step)
    requires Mapped(s) && Written(s) && Enabled(s, a)
    ensures Written(Exec(s, a))
  {
    hide CStr, StrCpy;
    if a.Write? {
      FieldRoundTrip(s.segment.uri, s.config.uri);
      FieldRoundTrip(s.segment.expr, s.config.expr);
    }
  }

  lemma StepTold(s: State, a: Step)
    requires Mapped(s) && Told(s) && Enabled(s, a)
    ensures Told(Exec(s, a))
  {
    hide CStr, Store;
  }

  lemma {:induction false} ReachedInv(config: Strings, steps: seq<Step>)
    requires Schedule(config, steps)
    ensures Inv(Reached(config, steps))
  {
    hide Mapped, Written, Told, Exec, Enabled;
    if steps == [] {
      InitialInv(config);
    } else {
      var front, a := steps[..|steps| - 1], steps[|steps| - 1];
      ReachedInv(config, front);
      StepMapped(Reached(config, front), a);
      StepWritten(Reached(config, front), a);
      StepTold(Reached(config, front), a);
    }
  }

  lemma InitialInv(config: Strings)
    ensures Inv(Initial(config))
  {
  }

  // ---- Where the processes are, from the steps they took ----

  /** Refused arguments, and a killed caller. */
  ghost predicate CallerEnds(s: State, steps: seq<Step>) {
    && (s.caller.Validating? <==> Validate !in steps && CallerDie !in steps)
    && (s.caller.Refused? <==> Validate in steps && (|s.config.uri| >= 512 || |s.config.expr| >= 512))
    && (s.caller.CallerDead? <==> CallerDie in steps)
  }

  /** The ERROR after registering or starting the worker failed. */
  ghost predicate CallerFails(s: State, steps: seq<Step>) {
    && (Register(false) in steps || AwaitStart(false) in steps ==>
          s.caller.Failing? || s.caller.Errored? || s.caller.CallerDead?)
    && (s.caller.Failing? || s.caller.Errored? ==> Register(false) in steps || AwaitStart(false) in steps)
  }

  /** The pid is returned only for a worker that was started. */
  ghost predicate CallerWaits(s: State, steps: seq<Step>) {
    && (s.caller.Polling? || s.caller.Looking? || s.caller.Leaving? || s.caller.Returned? ==> AwaitStart(true) in steps)
    && (AwaitStart(true) in steps ==> WasStarted(s))
    && (AwaitStart(false) in steps ==> WorkerDone(s))
    && (AwaitStart(true) in steps ==>
          s.caller.Polling? || s.caller.Looking? || s.caller.Leaving? || s.caller.Returned? || s.caller.CallerDead?)
  }

  ghost predicate CallerLeaves(s: State, steps: seq<Step>) {
    && (LookReady in steps ==> s.caller.Leaving? || s.caller.Returned? || s.caller.CallerDead?)
    && (s.caller.Leaving? || s.caller.Returned? ==> LookReady in steps)
    && (CallerDetach in steps <==> s.caller.Returned? || s.caller.Errored?)
  }

  ghost predicate WorkerStarts(s: State, steps: seq<Step>) {
    && (Register(true) in steps <==> !s.worker.Absent?)
    && (StartFails in steps <==> s.worker.NeverStarted?)
    && (Start in steps <==> WasStarted(s))
  }

  /** The segment is always there to attach to: a worker dies only when killed or without a database connection. */
  ghost predicate WorkerDies(s: State, steps: seq<Step>) {
    s.worker.WorkerDead? <==> Connect(false) in steps || WorkerDie in steps
  }

  ghost predicate WorkerOpens(s: State, steps: seq<Step>) {
    && (GetQueue(true) in steps <==> s.queueOpen)
    && (GetQueue(false) in steps ==> s.worker == Catching(false) || s.worker.Exited? || s.worker.WorkerDead?)
    && (SetReady in steps <==> s.segment.pinned && s.segment.ready == 1)
  }

  ghost predicate WorkerLeaves(s: State, steps: seq<Step>) {
    && (s.worker.Catching? ==> if s.worker.detached then Throw in steps else GetQueue(false) in steps)
    && (Throw in steps ==> s.worker == Catching(true) || s.worker.Exited? || s.worker.WorkerDead?)
    && (s.worker.Running? ==> WorkerDetach in steps)
    && (WorkerDetach in steps ==>
          s.worker.Running? || s.worker == Catching(true) || s.worker.Exited? || s.worker.WorkerDead?)
    && (s.worker.Exited? <==> Exit in steps || CatchDetach in steps)
  }

  lemma TookOne(steps: seq<Step>, a: Step)
    ensures forall b :: b in steps + [a] <==> b in steps || b == a
  {
  }

  lemma StepCallerEnds(s: State, steps: seq<Step>, a: Step)
    requires Written(s) && CallerEnds(s, steps) && Enabled(s, a)
    ensures CallerEnds(Exec(s, a), steps + [a])
  {
    hide CStr, Store, Unmapped;
    TookOne(steps, a);
  }

  lemma StepCallerFails(s: State, steps: seq<Step>, a: Step)
    requires CallerFails(s, steps) && Enabled(s, a)
    ensures CallerFails(Exec(s, a), steps + [a])
  {
    hide CStr, Store, Unmapped;
    TookOne(steps, a);
  }

  lemma StepCallerWaits(s: State, steps: seq<Step>, a: Step)
    requires CallerFails(s, steps) && CallerWaits(s, steps) && Enabled(s, a)
    ensures CallerWaits(Exec(s, a), steps + [a])
  {
    hide CStr, Store, Unmapped;
    TookOne(steps, a);
  }

  lemma StepCallerLeaves(s: State, steps: seq<Step>, a: Step)
    requires CallerLeaves(s, steps) && Enabled(s, a)
    ensures CallerLeaves(Exec(s, a), steps + [a])
  {
    hide CStr, Store, Unmapped;
    TookOne(steps, a);
  }

  lemma StepWorkerStarts(s: State, steps: seq<Step>, a: Step)
    requires Mapped(s) && WorkerStarts(s, steps) && Enabled(s, a)
    ensures WorkerStarts(Exec(s, a), steps + [a])
  {
    hide CStr, Store, Unmapped;
    TookOne(steps, a);
  }

  lemma StepWorkerDies(s: State, steps: seq<Step>, a: Step)
    requires Mapped(s) && WorkerDies(s, steps) && Enabled(s, a)
    ensures WorkerDies(Exec(s, a), steps + [a])
  {
    hide CStr, Store, Unmapped;
    TookOne(steps, a);
  }

  lemma StepWorkerOpens(s: State, steps: seq<Step>, a: Step)
    requires Mapped(s) && Told(s) && WorkerOpens(s, steps) && Enabled(s, a)
    ensures WorkerOpens(Exec(s, a), steps + [a])
  {
    hide CStr, Store;
    TookOne(steps, a);
  }

  lemma StepWorkerLeaves(s: State, steps: seq<Step>, a: Step)
    requires Mapped(s) && WorkerLeaves(s, steps) && Enabled(s, a)
    ensures WorkerLeaves(Exec(s, a), steps + [a])
  {
    hide CStr, Store, Unmapped;
    TookOne(steps, a);
  }

  lemma NothingTaken(config: Strings)
    ensures var s := Initial(config);
            && CallerEnds(s, []) && CallerFails(s, []) && CallerWaits(s, []) && CallerLeaves(s, [])
            && WorkerStarts(s, []) && WorkerDies(s, []) && WorkerOpens(s, []) && WorkerLeaves(s, [])
  {
  }

  /** All of this, in every schedule. */
  lemma {:induction false} StepsTaken(config: Strings, steps: seq<Step>)
    requires Schedule(config, steps)
    ensures var s := Reached(config, steps);
            && CallerEnds(s, steps) && CallerFails(s, steps) && CallerWaits(s, steps) && CallerLeaves(s, steps)
            && WorkerStarts(s, steps) && WorkerDies(s, steps) && WorkerOpens(s, steps) && WorkerLeaves(s, steps)
  {
    hide CallerEnds, CallerFails, CallerWaits, CallerLeaves, WorkerStarts, WorkerDies, WorkerOpens, WorkerLeaves,
         Mapped, Written, Told, Exec, Enabled;
    if steps == [] {
      NothingTaken(config);
    } else {
      var front, a := steps[..|steps| - 1], steps[|steps| - 1];
      StepsTaken(config, front);
      ReachedInv(config, front);
      assert steps == front + [a];
      var s := Reached(config, front);
      StepCallerEnds(s, front, a);
      StepCallerFails(s, front, a);
      StepCallerWaits(s, front, a);
      StepCallerLeaves(s, front, a);
      StepWorkerStarts(s, front, a);
      StepWorkerDies(s, front, a);
      StepWorkerOpens(s, front, a);
      StepWorkerLeaves(s, front, a);
    }
  }

  // ---- The main results, over every schedule ----

  /**
   Safety. In every interleaving, with either process killed anywhere: whenever a process is
   about to use or detach the segment it is attached and the segment exists; the worker's attach
   succeeds even if the caller has already left; and no process detaches twice.
   */
  lemma SegmentSafety(config: Strings, steps: seq<Step>, a: Step)
    requires Schedule(config, steps) && Enabled(Reached(config, steps), a)
    ensures var s := Reached(config, steps);
            && (CallerUses(s, a) ==> s.callerAttached && s.segment.alive)
            && (WorkerUses(s, a) ==> s.workerAttached && s.segment.alive)
            && (a.Attach? ==> s.segment.alive && !s.workerAttached)
            && s.callerDetaches <= 1 && s.workerDetaches <= 1
  {
    hide Reached, Schedule;
    ReachedInv(config, steps);
  }

  /**
   Detaches. A caller that finishes has detached exactly once; so has a worker that leaves its
   loop, or leaves through the exception handler, before or after its queue was open.
   */
  lemma DetachedOnce(config: Strings, steps: seq<Step>)
    requires Schedule(config, steps)
    ensures var s := Reached(config, steps);
            && (s.caller.Returned? || s.caller.Errored? ==> s.callerDetaches == 1 && !s.callerAttached)
            && (s.worker.Exited? ==> s.workerDetaches == 1 && !s.workerAttached)
  {
    hide Reached, Schedule;
    ReachedInv(config, steps);
  }

  /**
   The pin is never undone: the segment outlives both processes exactly if the caller got as far
   as pinning it, whether it then failed to register, was killed first, or returned.
   */
  lemma {:induction false} PinnedForGood(config: Strings, steps: seq<Step>)
    requires Schedule(config, steps)
    ensures var s := Reached(config, steps);
            && (s.segment.pinned <==> Pin in steps)
            && (Pin in steps ==> s.segment.alive)
            && (CallerDone(s) && (s.worker.Absent? || WorkerDone(s)) ==> (s.segment.alive <==> Pin in steps))
  {
    hide Exec, Enabled, Mapped, Written, Told;
    if steps != [] {
      var front, a := steps[..|steps| - 1], steps[|steps| - 1];
      PinnedForGood(config, front);
      ReachedInv(config, front);
      StepPin(Reached(config, front), a);
      assert steps == front + [a];
    }
    ReachedInv(config, steps);
    Survives(Reached(config, steps));
  }

  lemma StepPin(s: State, a: Step)
    requires Mapped(s) && Enabled(s, a)
    ensures Exec(s, a).segment.pinned <==> s.segment.pinned || a.Pin?
  {
    hide CStr, Store;
  }

  lemma Survives(s: State)
    requires Mapped(s)
    ensures s.segment.pinned ==> s.segment.alive
    ensures CallerDone(s) && (s.worker.Absent? || WorkerDone(s)) ==> (s.segment.alive <==> s.segment.pinned)
  {
  }

  /** However a schedule goes on, a pinned segment stays. */
  lemma PinKept(config: Strings, steps: seq<Step>, more: seq<Step>)
    requires Schedule(config, steps + more)
    ensures Schedule(config, steps)
    ensures Reached(config, steps).segment.pinned ==>
              Reached(config, steps + more).segment.pinned && Reached(config, steps + more).segment.alive
  {
    ScheduleStart(config, steps, more);
    PinnedForGood(config, steps);
    PinnedForGood(config, steps + more);
  }

  lemma {:induction false} ScheduleStart(config: Strings, steps: seq<Step>, more: seq<Step>)
    requires Schedule(config, steps + more)
    ensures Schedule(config, steps)
    decreases |more|
  {
    if more == [] {
      assert steps + more == steps;
    } else {
      assert (steps + more)[..|steps + more| - 1] == steps + more[..|more| - 1];
      ScheduleStart(config, steps, more[..|more| - 1]);
    }
  }

  /** The worker runs with the caller's strings (text values hold no NUL). */
  lemma CopyIsConfig(config: Strings, steps: seq<Step>)
    requires Schedule(config, steps) && '\0' !in config.uri && '\0' !in config.expr
    requires PastCopy(Reached(config, steps).worker)
    ensures Reached(config, steps).copy == config
  {
    hide Exec, Enabled;
    ReachedInv(config, steps);
    ConfigKept(config, steps);
    hide Reached, Schedule;
    CStrWhole(config.uri);
    CStrWhole(config.expr);
  }

  lemma {:induction false} ConfigKept(config: Strings, steps: seq<Step>)
    requires Schedule(config, steps)
    ensures Reached(config, steps).config == config
  {
    hide Exec, Enabled;
    if steps != [] {
      ConfigKept(config, steps[..|steps| - 1]);
      StepConfig(Reached(config, steps[..|steps| - 1]), steps[|steps| - 1]);
    }
  }

  lemma StepConfig(s: State, a: Step)
    ensures Exec(s, a).config == s.config
  {
    hide CStr, Store, StrCpy, Unmapped;
  }

  /**
   Readiness. bmq_subscribe returns without its WARNING only if the worker's queue was open. If
   the worker fails or dies before that, ready is still 0, so the caller, if it returns a pid at
   all, warns; and it never sleeps more than 250 times.
   */
  lemma Readiness(config: Strings, steps: seq<Step>)
    requires Schedule(config, steps)
    ensures var s := Reached(config, steps);
            && (s.caller.Returned? && !s.caller.warned ==> s.queueOpen)
            && (PastPin(s.caller) && !s.queueOpen ==> s.segment.ready == 0)
            && (WorkerDone(s) && !s.queueOpen && s.caller.Returned? ==> s.caller.warned)
            && s.waitedUs <= 250 * POLL_INTERVAL_US
  {
    hide Reached, Schedule;
    ReachedInv(config, steps);
  }

  /** Steps the caller has left, at most. */
  function CallerLeft(s: State): nat {
    match s.caller
    case Validating => 260
    case Creating => 259
    case Writing => 258
    case Pinning => 257
    case Registering => 256
    case AwaitingStart => 255
    case Polling => if s.waitedUs >= READY_TIMEOUT_US then 3 else 3 + (READY_TIMEOUT_US - s.waitedUs) / POLL_INTERVAL_US
    case Looking => 2
    case Leaving(_) => 1
    case Failing => 1
    case _ => 0
  }

  predicate CallerStep(a: Step) {
    a.Validate? || a.Create? || a.Write? || a.Pin? || a.Register? || a.AwaitStart? || a.PollReady? || a.LookReady?
    || a.CallerDetach? || a.CallerDie?
  }

  /** Registered, and waiting for the postmaster. */
  predicate AwaitsPostmaster(s: State) {
    s.caller.AwaitingStart? && s.worker.Registered?
  }

  /**
   The one place where the caller waits: until it is done it has a step of its own exactly when it
   is not waiting for the postmaster to start the registered worker. There the worker can be
   started or found not to start, and either lets the caller go on.
   */
  lemma CallerBlocksOnlyOnStart(config: Strings, steps: seq<Step>)
    requires Schedule(config, steps) && !CallerDone(Reached(config, steps))
    ensures var s := Reached(config, steps);
            && ((exists b :: CallerStep(b) && !b.CallerDie? && Enabled(s, b)) <==> !AwaitsPostmaster(s))
            && Enabled(s, CallerDie) && (forall ok :: Enabled(s, Register(ok)) == s.caller.Registering?)
            && (AwaitsPostmaster(s) ==>
                  && Enabled(s, Start) && Enabled(Exec(s, Start), AwaitStart(true))
                  && Enabled(s, StartFails) && Enabled(Exec(s, StartFails), AwaitStart(false)))
  {
    var s := Reached(config, steps);
    ReachedInv(config, steps);
    if !AwaitsPostmaster(s) {
      var b := NextCallerStep(s);
    }
  }

  /**
   The caller always gets through: each step of its own brings it closer to the end, and nothing
   the worker does, fails to do, or how it dies takes any of that back.
   */
  lemma CallerFinishes(config: Strings, steps: seq<Step>, a: Step)
    requires Schedule(config, steps) && Enabled(Reached(config, steps), a)
    ensures CallerStep(a) ==> CallerLeft(Exec(Reached(config, steps), a)) < CallerLeft(Reached(config, steps))
    ensures !CallerStep(a) ==> CallerLeft(Exec(Reached(config, steps), a)) == CallerLeft(Reached(config, steps))
  {
    hide Reached, Schedule, Mapped, Written, Exec, Enabled, CallerStep, CallerLeft;
    ReachedInv(config, steps);
    if CallerStep(a) {
      CallerAdvances(Reached(config, steps), a);
    } else {
      WorkerLeavesCaller(Reached(config, steps), a);
    }
  }

  lemma CallerAdvances(s: State, a: Step)
    requires CallerStep(a) && Enabled(s, a)
    requires s.waitedUs <= READY_TIMEOUT_US && s.waitedUs % POLL_INTERVAL_US == 0
    ensures CallerLeft(Exec(s, a)) < CallerLeft(s)
  {
    hide CStr, Store, Unmapped;
    PollProgress(s.waitedUs);
  }

  lemma WorkerLeavesCaller(s: State, a: Step)
    requires !CallerStep(a)
    ensures CallerLeft(Exec(s, a)) == CallerLeft(s)
  {
    hide CStr, Store, Unmapped;
  }

  lemma NextCallerStep(s: State) returns (b: Step)
    requires Mapped(s) && !CallerDone(s) && !AwaitsPostmaster(s)
    ensures CallerStep(b) && !b.CallerDie? && Enabled(s, b)
  {
    match s.caller
    case Validating => b := Validate;
    case Creating =>
      var field: string := seq(FIELD, i => ' ');
      b := Create(Segment(true, false, field, field, 0));
    case Writing => b := Write;
    case Pinning => b := Pin;
    case Registering => b := Register(true);
    case AwaitingStart => b := AwaitStart(WasStarted(s));
    case Polling => b := PollReady;
    case Looking => b := LookReady;
    case Leaving(_) => b := CallerDetach;
    case Failing => b := CallerDetach;
  }

  lemma PollProgress(waited: nat)
    requires waited <= READY_TIMEOUT_US && waited % POLL_INTERVAL_US == 0
    ensures waited < READY_TIMEOUT_US ==> waited + POLL_INTERVAL_US <= READY_TIMEOUT_US
    ensures waited < READY_TIMEOUT_US ==>
              (READY_TIMEOUT_US - waited - POLL_INTERVAL_US) / POLL_INTERVAL_US + 1 == (READY_TIMEOUT_US - waited) / POLL_INTERVAL_US
  {
  }

  // ---- The caller's wait, as the loop it is ----

  /** The worker runs for a while: its steps in `turn`, as far as they are possible. */
  function WorkerRuns(s: State, turn: seq<Step>): State
    decreases |turn|
  {
    if turn == [] then s
    else if !CallerStep(turn[0]) && Enabled(s, turn[0]) then WorkerRuns(Exec(s, turn[0]), turn[1..])
    else WorkerRuns(s, turn[1..])
  }

  lemma WorkerStepKeeps(s: State, a: Step)
    requires !CallerStep(a) && Enabled(s, a)
    ensures Exec(s, a).caller == s.caller && Exec(s, a).waitedUs == s.waitedUs
    ensures s.segment.ready != 0 ==> Exec(s, a).segment.ready != 0
  {
    hide CStr, Store;
  }

  /** `steps` is a schedule that leads to `s`. */
  ghost predicate Leads(config: Strings, steps: seq<Step>, s: State) {
    Schedule(config, steps) && Reached(config, steps) == s
  }

  lemma LeadsOn(config: Strings, steps: seq<Step>, s: State, a: Step)
    requires Leads(config, steps, s) && Enabled(s, a)
    ensures Leads(config, steps + [a], Exec(s, a))
  {
    assert (steps + [a])[..|steps + [a]| - 1] == steps;
  }

  lemma {:induction false} WorkerRunsLeads(config: Strings, steps: seq<Step>, s: State, turn: seq<Step>)
    returns (steps': seq<Step>)
    requires Leads(config, steps, s)
    ensures steps <= steps' && Leads(config, steps', WorkerRuns(s, turn))
    ensures var k := WorkerRuns(s, turn);
            && k.caller == s.caller && k.waitedUs == s.waitedUs && (s.segment.ready != 0 ==> k.segment.ready != 0)
    decreases |turn|
  {
    hide Leads, Exec, Enabled, CallerStep;
    if turn == [] {
      steps' := steps;
    } else if !CallerStep(turn[0]) && Enabled(s, turn[0]) {
      LeadsOn(config, steps, s, turn[0]);
      WorkerStepKeeps(s, turn[0]);
      steps' := WorkerRunsLeads(config, steps + [turn[0]], Exec(s, turn[0]), turn[1..]);
    } else {
      steps' := WorkerRunsLeads(config, steps, s, turn[1..]);
    }
  }

  lemma PollStep(s: State)
    requires s.caller.Polling?
    ensures Enabled(s, PollReady) && Exec(s, PollReady).segment == s.segment
    ensures Exec(s, PollReady) == if s.segment.ready == 0 && s.waitedUs < READY_TIMEOUT_US
                                  then s.(waitedUs := s.waitedUs + POLL_INTERVAL_US) else s.(caller := Looking)
  {
  }

  lemma LookStep(config: Strings, steps: seq<Step>, s: State)
    requires Leads(config, steps, s) && s.caller.Looking?
    ensures Leads(config, steps + [LookReady], Exec(s, LookReady))
    ensures Exec(s, LookReady) == s.(caller := Leaving(s.segment.ready == 0))
    ensures s.segment.ready != 0 ==> s.queueOpen
  {
    LeadsOn(config, steps, s, LookReady);
    ReachedInv(config, steps + [LookReady]);
  }

  /**
   The worker runs at will between the caller's reads of the flag: `turns` says how. The loop
   sleeps exactly while it reads 0, at most 250 times; the WARNING says that no read found the
   flag set, in particular not the one after the loop; without it the queue is open; and the
   whole wait is a schedule of the two processes.
   */
  method AwaitReady(s0: State, turns: nat -> seq<Step>, ghost config: Strings, ghost steps0: seq<Step>)
    returns (flags: seq<nat>, warned: bool, s: State, ghost steps: seq<Step>)
    requires Leads(config, steps0, s0) && s0.caller.Polling? && s0.waitedUs == 0
    ensures 2 <= |flags| <= 252 && forall i :: 0 <= i < |flags| - 2 ==> flags[i] == 0
    ensures |flags| < 252 ==> flags[|flags| - 2] != 0
    ensures warned <==> flags[|flags| - 1] == 0
    ensures warned <==> forall i :: 0 <= i < |flags| ==> flags[i] == 0
    ensures !warned ==> s.queueOpen
    ensures steps0 <= steps && Leads(config, steps, s)
    ensures s.caller == Leaving(warned) && s.waitedUs == (|flags| - 2) * 20_000
  {
    hide Leads, Exec, Enabled, WorkerRuns;
    var waitedUs := 0;
    steps := WorkerRunsLeads(config, steps0, s0, turns(0));
    s := WorkerRuns(s0, turns(0));
    flags := [s.segment.ready];
    while flags[|flags| - 1] == 0 && waitedUs < READY_TIMEOUT_US
      invariant steps0 <= steps && Leads(config, steps, s) && s.caller.Polling?
      invariant |flags| >= 1 && flags[|flags| - 1] == s.segment.ready
      invariant s.waitedUs == waitedUs == (|flags| - 1) * POLL_INTERVAL_US <= READY_TIMEOUT_US
      invariant forall i :: 0 <= i < |flags| - 1 ==> flags[i] == 0
    {
      PollStep(s);
      LeadsOn(config, steps, s, PollReady);
      waitedUs := waitedUs + POLL_INTERVAL_US;                      // pg_usleep
      s, steps := Exec(s, PollReady), steps + [PollReady];
      var before := s;
      steps := WorkerRunsLeads(config, steps, before, turns(|flags|));
      s := WorkerRuns(before, turns(|flags|));
      flags := flags + [s.segment.ready];
    }
    PollStep(s);
    LeadsOn(config, steps, s, PollReady);
    s, steps := Exec(s, PollReady), steps + [PollReady];
    var before := s;
    steps := WorkerRunsLeads(config, steps, before, turns(|flags|));
    s := WorkerRuns(before, turns(|flags|));
    assert flags[|flags| - 1] != 0 ==> s.segment.ready != 0;
    flags := flags + [s.segment.ready];
    warned := s.segment.ready == 0;
    assert warned == (flags[|flags| - 1] == 0) && (warned ==> flags[|flags| - 2] == 0);
    LookStep(config, steps, s);
    s, steps := Exec(s, LookReady), steps + [LookReady];
  }

  // ---- The worker gets on, and the handoff can succeed ----

  /**
   A started worker is never blocked: until it is done one of its own steps is possible, with either
   outcome of its connects, with exceptions in its loop, and it can be killed anywhere.
   */
  lemma WorkerNeverBlocked(config: Strings, steps: seq<Step>)
    requires Schedule(config, steps) && WasStarted(Reached(config, steps)) && !WorkerDone(Reached(config, steps))
    ensures Enabled(Reached(config, steps), WorkerDie)
    ensures Enabled(Reached(config, steps), Throw) == Reached(config, steps).worker.Running?
    ensures exists b :: !CallerStep(b) && !b.WorkerDie? && Enabled(Reached(config, steps), b)
    ensures forall ok :: Enabled(Reached(config, steps), Connect(ok)) == Reached(config, steps).worker.Copied?
    ensures forall ok :: Enabled(Reached(config, steps), GetQueue(ok)) == Reached(config, steps).worker.Connected?
  {
    var s := Reached(config, steps);
    var b := NextWorkerStep(s);
  }

  lemma NextWorkerStep(s: State) returns (b: Step)
    requires WasStarted(s) && !WorkerDone(s)
    ensures !CallerStep(b) && !b.WorkerDie? && Enabled(s, b)
  {
    match s.worker
    case Started => b := Attach;
    case Attached => b := CopyOut;
    case Copied => b := Connect(true);
    case Connected => b := GetQueue(true);
    case Open => b := SetReady;
    case Flagged => b := WorkerDetach;
    case Running => b := Exit;
    case Catching(_) => b := CatchDetach;
  }

  /** The caller up to its wait, with the worker registered and started. */
  lemma ToPolling(config: Strings) returns (steps: seq<Step>, s: State)
    requires |config.uri| < 512 && |config.expr| < 512
    ensures Leads(config, steps, s) && s.caller.Polling? && s.worker.Started? && s.waitedUs == 0
  {
    hide CStr, Store, Leads;
    var field: string := seq(FIELD, i => ' ');
    steps, s := [], Initial(config);
    assert Leads(config, steps, s) by { LeadsStart(config); }
    LeadsOn(config, steps, s, Validate);
    steps, s := steps + [Validate], Exec(s, Validate);
    var create := Create(Segment(true, false, field, field, 0));
    LeadsOn(config, steps, s, create);
    steps, s := steps + [create], Exec(s, create);
    LeadsOn(config, steps, s, Write);
    steps, s := steps + [Write], Exec(s, Write);
    LeadsOn(config, steps, s, Pin);
    steps, s := steps + [Pin], Exec(s, Pin);
    LeadsOn(config, steps, s, Register(true));
    steps, s := steps + [Register(true)], Exec(s, Register(true));
    LeadsOn(config, steps, s, Start);
    steps, s := steps + [Start], Exec(s, Start);
    LeadsOn(config, steps, s, AwaitStart(true));
    steps, s := steps + [AwaitStart(true)], Exec(s, AwaitStart(true));
  }

  lemma LeadsStart(config: Strings)
    ensures Leads(config, [], Initial(config))
  {
  }

  /** The worker from its start into its message loop. */
  lemma ToRunning(config: Strings, steps: seq<Step>, s: State) returns (steps': seq<Step>, k: State)
    requires Leads(config, steps, s) && s.worker.Started? && s.segment.alive && s.caller.Polling?
    ensures Leads(config, steps', k) && k.worker.Running? && k.caller == s.caller && k.segment.ready == 1
  {
    hide CStr, Store, Leads;
    steps', k := steps, s;
    LeadsOn(config, steps', k, Attach);
    steps', k := steps' + [Attach], Exec(k, Attach);
    LeadsOn(config, steps', k, CopyOut);
    steps', k := steps' + [CopyOut], Exec(k, CopyOut);
    LeadsOn(config, steps', k, Connect(true));
    steps', k := steps' + [Connect(true)], Exec(k, Connect(true));
    LeadsOn(config, steps', k, GetQueue(true));
    steps', k := steps' + [GetQueue(true)], Exec(k, GetQueue(true));
    LeadsOn(config, steps', k, SetReady);
    steps', k := steps' + [SetReady], Exec(k, SetReady);
    LeadsOn(config, steps', k, WorkerDetach);
    steps', k := steps' + [WorkerDetach], Exec(k, WorkerDetach);
  }

  /** For any strings that fit there is a schedule in which the caller returns without a WARNING and the worker runs. */
  lemma HandoffSucceeds(config: Strings) returns (steps: seq<Step>)
    requires |config.uri| < 512 && |config.expr| < 512
    ensures Schedule(config, steps)
    ensures Reached(config, steps).caller == Returned(false) && Reached(config, steps).worker.Running?
  {
    var s;
    steps, s := ToPolling(config);
    ReachedInv(config, steps);
    steps, s := ToRunning(config, steps, s);
    LeadsOn(config, steps, s, PollReady);
    steps, s := steps + [PollReady], Exec(s, PollReady);
    LeadsOn(config, steps, s, LookReady);
    steps, s := steps + [LookReady], Exec(s, LookReady);
    LeadsOn(config, steps, s, CallerDetach);
    steps, s := steps + [CallerDetach], Exec(s, CallerDetach);
  }
}

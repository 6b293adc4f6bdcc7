/**
 The message loop of bmq_subscriber_main, proved to be a run of the transition system of
 ClientMachine that commits before it confirms and leaves only between messages.
 */
module Worker {
  import opened Messages
  import opened ClientMachine
  import opened Consume

  datatype WorkerEnv = WorkerEnv(
    shutdown: nat -> bool,    // n-th read of ShutdownRequestPending
    poll: nat -> Event,       // n-th nextEvent
    callback: nat -> bool,    // whether the n-th callback returned without an error
    accepted: nat -> bool     // return code of the confirm after the n-th callback
  )

  /** The messages whose position satisfies `keep`, in order. */
  ghost function Kept(ms: seq<Message>, keep: nat -> bool): seq<Message> {
    if ms == [] then []
    else Kept(ms[..|ms| - 1], keep) + (if keep(|ms| - 1) then [ms[|ms| - 1]] else [])
  }

  lemma KeptSnoc(ms: seq<Message>, m: Message, keep: nat -> bool)
    ensures Kept(ms + [m], keep) == Kept(ms, keep) + (if keep(|ms|) then [m] else [])
  {
    assert (ms + [m])[..|ms + [m]| - 1] == ms;
  }

  /** How many of the first `n` positions are kept. */
  ghost function Rank(keep: nat -> bool, n: nat): nat {
    if n == 0 then 0 else Rank(keep, n - 1) + (if keep(n - 1) then 1 else 0)
  }

  /** Exactly these: each kept message stands right after the kept ones before it, and there are no others. */
  lemma {:induction false} KeptAt(ms: seq<Message>, keep: nat -> bool, i: nat)
    requires i <= |ms|
    ensures |Kept(ms, keep)| == Rank(keep, |ms|) && Rank(keep, i) <= Rank(keep, |ms|)
    ensures i < |ms| && keep(i) ==> Rank(keep, i) < |Kept(ms, keep)| && Kept(ms, keep)[Rank(keep, i)] == ms[i]
  {
    if ms != [] {
      var front := ms[..|ms| - 1];
      KeptAt(front, keep, if i <= |front| then i else |front|);
    }
  }

  /** The n-th callback returned with an error. */
  ghost function Failed(env: WorkerEnv): nat -> bool {
    (n: nat) => !env.callback(n)
  }

  /** The n-th callback committed and the broker accepted its confirm. */
  ghost function Confirmed(env: WorkerEnv): nat -> bool {
    (n: nat) => env.callback(n) && env.accepted(n)
  }

  /** Where the worker stands after handling `handled` and polling `k` times. */
  ghost predicate At(env: WorkerEnv, c0: Client, log: seq<Action>, c: Client, handled: seq<Message>, k: nat) {
    && Traced(c0, log, c) && c.mode.Subscriber?
    && c.arrived == Rest(c0.arrived, PushCount(env.poll, k))
    && handled + c.current == Stream(env.poll, k)
    && c.served == c0.served + Kept(handled, env.callback)
    && c.passed == c0.passed + Kept(handled, Failed(env))
    && c.confirmed == c0.confirmed + Kept(handled, Confirmed(env))
  }

  lemma CheckFlag(env: WorkerEnv, c0: Client, log: seq<Action>, c: Client, handled: seq<Message>, k: nat, flag: bool)
    returns (log': seq<Action>, c': Client)
    requires At(env, c0, log, c, handled, k) && c.pc.Checking? && !c.shutdown
    ensures At(env, c0, log', c', handled, k)
    ensures c' == c.(pc := if flag then Exiting else Receiving, shutdown := flag)
  {
    hide Traced, Rest, Stream, PushCount, Kept;
    log', c' := log, c;
    if flag {
      Extend(c0, log', c', Signal);
      log', c' := log' + [Signal], Exec(FLUSH_THRESHOLD, c', Signal);
    }
    Extend(c0, log', c', Check);
    log', c' := log' + [Check], Exec(FLUSH_THRESHOLD, c', Check);
  }

  lemma EventOver(env: WorkerEnv, c0: Client, log: seq<Action>, c: Client, handled: seq<Message>, k: nat)
    returns (log': seq<Action>, c': Client)
    requires At(env, c0, log, c, handled, k) && c.pc.Receiving? && c.current == []
    ensures At(env, c0, log', c', handled, k) && c' == c.(pc := Checking)
  {
    hide Traced, Rest, Stream, PushCount, Kept;
    Extend(c0, log, c, ClientMachine.Poll);
    log', c' := log + [ClientMachine.Poll], Exec(FLUSH_THRESHOLD, c, ClientMachine.Poll);
  }

  lemma NothingPolled(env: WorkerEnv, c0: Client, log: seq<Action>, c: Client, handled: seq<Message>, k: nat)
    requires At(env, c0, log, c, handled, k) && !env.poll(k).Push?
    ensures At(env, c0, log, c, handled, k + 1)
  {
    hide Traced, Rest, Kept;
    assert Stream(env.poll, k + 1) == Stream(env.poll, k) + [];
  }

  lemma EventPolled(env: WorkerEnv, c0: Client, log: seq<Action>, c: Client, handled: seq<Message>, k: nat)
    returns (log': seq<Action>, c': Client)
    requires At(env, c0, log, c, handled, k) && QueueFirst(c0.arrived, env.poll) && env.poll(k).Push?
    requires c.pc.Receiving? && c.current == []
    ensures At(env, c0, log', c', handled, k + 1)
    ensures c'.pc.Receiving? && c'.current == env.poll(k).messages && c'.shutdown == c.shutdown
    ensures c'.confirmed == c.confirmed
  {
    hide Traced, Rest, Kept, QueueFirst;
    log', c' := Polled(c0.arrived, env.poll, k, c0, log, c);
  }

  /** One message: its transaction, and the confirm that follows a commit. */
  lemma HandledRun(c0: Client, log: seq<Action>, c: Client, committed: bool, accepted: bool)
    returns (log': seq<Action>, c': Client)
    requires Traced(c0, log, c) && c.mode.Subscriber? && c.pc.Receiving? && c.current != []
    ensures Traced(c0, log', c')
    ensures var m := c.current[0];
            c' == c.(pc := Checking, current := c.current[1..],
                     served := c.served + (if committed then [m] else []),
                     passed := c.passed + (if committed then [] else [m]),
                     confirmed := c.confirmed + (if committed && accepted then [m] else []),
                     givenUp := c.givenUp + (if committed && !accepted then [m] else []))
  {
    hide Traced;
    Extend(c0, log, c, Take);
    log', c' := log + [Take], Exec(FLUSH_THRESHOLD, c, Take);
    if committed {
      Extend(c0, log', c', Commit);
      log', c' := log' + [Commit], Exec(FLUSH_THRESHOLD, c', Commit);
      Extend(c0, log', c', Confirm(accepted));
      log', c' := log' + [Confirm(accepted)], Exec(FLUSH_THRESHOLD, c', Confirm(accepted));
    } else {
      Extend(c0, log', c', Abort);
      log', c' := log' + [Abort], Exec(FLUSH_THRESHOLD, c', Abort);
    }
  }

  lemma Handled(env: WorkerEnv, c0: Client, log: seq<Action>, c: Client, handled: seq<Message>, k: nat)
    returns (log': seq<Action>, c': Client)
    requires At(env, c0, log, c, handled, k) && c.pc.Receiving? && c.current != []
    ensures At(env, c0, log', c', handled + [c.current[0]], k)
    ensures c'.pc.Checking? && c'.current == c.current[1..] && c'.shutdown == c.shutdown
    ensures c'.confirmed ==
            c.confirmed + (if env.callback(|handled|) && env.accepted(|handled|) then [c.current[0]] else [])
  {
    hide Traced, Rest, Stream, PushCount, Kept;
    var m, n := c.current[0], |handled|;
    log', c' := HandledRun(c0, log, c, env.callback(n), env.accepted(n));
    KeptSnoc(handled, m, env.callback);
    KeptSnoc(handled, m, Failed(env));
    KeptSnoc(handled, m, Confirmed(env));
    assert handled + c.current == handled + [m] + c.current[1..];
  }

  /** The inner loop: each message in its own transaction, the flag read after each. */
  method WalkEvent(env: WorkerEnv, session: Session, messages: seq<Message>, count: nat, checksBefore: nat,
                   ghost c0: Client, ghost log: seq<Action>, ghost c: Client, ghost handled: seq<Message>, ghost k: nat)
    returns (effects: seq<Message>, checks: nat, done: nat,
             ghost handled': seq<Message>, ghost log': seq<Action>, ghost c': Client)
    requires At(env, c0, log, c, handled, k) && c.pc.Receiving? && c.current == messages && !c.shutdown
    requires session.confirmed == c.confirmed && count == |handled|
    requires checksBefore > 0 && forall j :: 0 <= j < checksBefore ==> !env.shutdown(j)
    modifies session
    ensures At(env, c0, log', c', handled', k) && handled <= handled' && |handled'| == count + done
    ensures Kept(handled', env.callback) == Kept(handled, env.callback) + effects
    ensures session.confirmed == c'.confirmed && checks == checksBefore + done
    ensures done == |messages| || env.shutdown(checks - 1)
    ensures forall j :: 0 <= j < checks - 1 ==> !env.shutdown(j)
    ensures if env.shutdown(checks - 1) then c'.pc.Exiting?
            else c'.pc.Checking? && c'.current == [] && !c'.shutdown
  {
    hide At;
    effects, checks, done, handled', log', c' := [], checksBefore, 0, handled, log, c;
    while done < |messages|
      invariant 0 <= done <= |messages| && count + done == |handled'| && handled <= handled'
      invariant At(env, c0, log', c', handled', k) && c'.pc.Receiving? && !c'.shutdown
      invariant c'.current == messages[done..] && session.confirmed == c'.confirmed
      invariant Kept(handled', env.callback) == Kept(handled, env.callback) + effects
      invariant checks == checksBefore + done && forall j :: 0 <= j < checks ==> !env.shutdown(j)
    {
      var m, n := messages[done], count + done;
      done := done + 1;
      var callbackOk := env.callback(n);
      if callbackOk {
        effects := effects + [m];                                   // CommitTransactionCommand
        var rc := session.ConfirmMessage(m, env.accepted(n));       // the result is not looked at
      }
      log', c' := Handled(env, c0, log', c', handled', k);
      KeptSnoc(handled', m, env.callback);
      handled' := handled' + [m];
      checks := checks + 1;
      log', c' := CheckFlag(env, c0, log', c', handled', k, env.shutdown(checks - 1));
      if env.shutdown(checks - 1) {
        return;
      }
    }
    log', c' := EventOver(env, c0, log', c', handled', k);
  }

  /**
   The loop itself. The first raised flag it checks ends it, between two messages; by then the
   messages it handled are exactly the first ones polled, its effects are those whose callback
   succeeded, and its confirms those of them the broker accepted.
   */
  method SubscriberLoop(env: WorkerEnv, session: Session, ghost c0: Client, ghost horizon: nat)
    returns (effects: seq<Message>, checks: nat, polls: nat,
             ghost handled: seq<Message>, ghost log: seq<Action>, ghost c: Client)
    requires c0.pc.Checking? && c0.mode.Subscriber? && !c0.shutdown && c0.current == []
    requires QueueFirst(c0.arrived, env.poll) && session.confirmed == c0.confirmed
    requires env.shutdown(horizon) && forall i: nat, j: nat :: i <= j && env.shutdown(i) ==> env.shutdown(j)
    modifies session
    ensures Traced(c0, log, c) && c.pc.Exiting?
    ensures handled <= Stream(env.poll, polls)
    ensures effects == Kept(handled, env.callback) && c.served == c0.served + effects
    ensures c.passed == c0.passed + Kept(handled, Failed(env))
    ensures session.confirmed == c.confirmed == c0.confirmed + Kept(handled, Confirmed(env))
    ensures checks == polls + |handled| + 1 && env.shutdown(checks - 1)
    ensures handled == Stream(env.poll, polls) || (checks >= 2 && env.shutdown(checks - 2))
    ensures forall j :: 0 <= j < checks - 2 ==> !env.shutdown(j)
  {
    hide At, QueueFirst;
    effects, checks, polls, handled, log, c := [], 0, 0, [], [], c0;
    AtStart(env, c0);
    var count := 0;   // messages handled
    while true
      invariant At(env, c0, log, c, handled, polls) && effects == Kept(handled, env.callback)
      invariant session.confirmed == c.confirmed && count == |handled| && checks == polls + |handled|
      invariant handled == Stream(env.poll, polls) || (checks > 0 && env.shutdown(checks - 1))
      invariant forall j :: 0 <= j < checks - 1 ==> !env.shutdown(j)
      invariant if checks > 0 && env.shutdown(checks - 1) then c.pc.Exiting?
                else c.pc.Checking? && c.current == [] && !c.shutdown
      decreases horizon + 1 - checks
    {
      var stop := env.shutdown(checks);
      checks := checks + 1;
      if stop {
        if c.pc.Checking? {
          log, c := CheckFlag(env, c0, log, c, handled, polls, true);
        }
        break;
      }
      log, c := CheckFlag(env, c0, log, c, handled, polls, false);
      var event := env.poll(polls);
      polls := polls + 1;
      if !event.Push? {
        NothingPolled(env, c0, log, c, handled, polls - 1);
        log, c := EventOver(env, c0, log, c, handled, polls);
        AllHandled(env, c0, log, c, handled, polls);
        continue;
      }
      log, c := EventPolled(env, c0, log, c, handled, polls - 1);
      var more, done;
      more, checks, done, handled, log, c := WalkEvent(env, session, event.messages, count, checks,
                                                       c0, log, c, handled, polls);
      count := count + done;
      effects := effects + more;
      AllHandled(env, c0, log, c, handled, polls);
    }
    AtEnd(env, c0, log, c, handled, polls);
  }

  lemma AllHandled(env: WorkerEnv, c0: Client, log: seq<Action>, c: Client, handled: seq<Message>, k: nat)
    requires At(env, c0, log, c, handled, k)
    ensures c.current == [] ==> handled == Stream(env.poll, k)
  {
    hide Traced, Stream, Kept;
  }

  lemma AtStart(env: WorkerEnv, c0: Client)
    requires c0.mode.Subscriber? && c0.current == []
    ensures At(env, c0, [], c0, [], 0)
  {
  }

  lemma AtEnd(env: WorkerEnv, c0: Client, log: seq<Action>, c: Client, handled: seq<Message>, polls: nat)
    requires At(env, c0, log, c, handled, polls)
    ensures Traced(c0, log, c) && handled <= Stream(env.poll, polls)
    ensures c.served == c0.served + Kept(handled, env.callback)
    ensures c.passed == c0.passed + Kept(handled, Failed(env))
    ensures c.confirmed == c0.confirmed + Kept(handled, Confirmed(env))
  {
    hide Traced, Stream, Kept;
  }
}

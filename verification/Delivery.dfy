/**
 The whole system: a broker in priority mode, and any number of backends and subscriber workers
 that open queues, publish, pull, run callbacks, confirm, stop and crash in any interleaving.

 What is assumed of the broker:
 - a stored message is pushed to at most one open handle at a time;
 - a handle is not pushed beyond its window of unconfirmed messages;
 - unconfirmed messages return to storage only when the process holding them ends.
 */
module Delivery {
  import opened Messages
  import opened ClientMachine
  import opened Flow

  datatype System = System(
    published: set<Message>,
    stored: set<Message>,
    confirmed: set<Message>,
    procs: map<nat, Link>,
    served: set<Message>,     // ever entered a tuplestore, or had its callback committed
    effects: seq<Message>,    // committed callbacks, in order
    crashes: nat,             // workers that ended other than through their shutdown flag
    badConfirms: nat          // failed confirmMessage calls of workers
  )

  datatype Event =
    | Spawn(p: nat, worker: bool)
    | Open(p: nat, uri: Uri)
    | Publish(p: nat, m: Message)
    | Push(p: nat, event: seq<Message>)
    | Local(p: nat, a: Action)
    | Leave(p: nat)
    | Crash(p: nat)

  const START := System({}, {}, {}, map[], {}, [], 0, 0)

  ghost predicate May(s: System, e: Event) {
    match e
    case Spawn(p, _) => p !in s.procs
    case Open(p, _) => p in s.procs
    case Publish(p, m) => p in s.procs && m.uri in s.procs[p].handles && m !in s.published
    case Push(p, event) =>
      && p in s.procs && event != [] && NoDup(event) && Elems(event) <= s.stored
      && forall m :: m in event ==>
           && m.uri in s.procs[p].handles
           && |Share(s.procs[p].outstanding + Elems(event), m.uri)| <= WINDOW
    case Local(p, a) => p in s.procs && !a.Arrive? && Enabled(s.procs[p].client, a)
    case Leave(p) => p in s.procs && (s.procs[p].client.pc.Idle? || s.procs[p].client.pc.Exiting?)
    case Crash(p) => p in s.procs
  }

  ghost function Happen(s: System, e: Event): System
    requires May(s, e)
  {
    match e
    case Spawn(p, worker) => s.(procs := s.procs[p := Fresh(if worker then NEW_WORKER else NEW_BACKEND, {})])
    case Open(p, u) => s.(procs := s.procs[p := s.procs[p].(handles := s.procs[p].handles + {u})])
    case Publish(p, m) => s.(published := s.published + {m}, stored := s.stored + {m})
    case Push(p, event) =>
      s.(stored := s.stored - Elems(event), procs := s.procs[p := LExec(FLUSH_THRESHOLD, s.procs[p], Arrive(event))])
    case Local(p, a) =>
      var c, l := s.procs[p].client, LExec(FLUSH_THRESHOLD, s.procs[p], a);
      s.(procs := s.procs[p := l],
         confirmed := s.confirmed + Elems(Accepted(c, a)),
         served := s.served + Elems(l.client.served),
         effects := s.effects + (if a.Commit? then [c.pc.m] else []),
         badConfirms := s.badConfirms + (if a == Confirm(false) && c.mode.Subscriber? then 1 else 0))
    case Leave(p) => s.(stored := s.stored + s.procs[p].outstanding, procs := s.procs - {p})
    case Crash(p) =>
      s.(stored := s.stored + s.procs[p].outstanding, procs := s.procs - {p},
         crashes := s.crashes + (if s.procs[p].client.mode.Subscriber? then 1 else 0))
  }

  ghost predicate History(es: seq<Event>)
    decreases |es|, 0
  {
    es == [] || (History(es[..|es| - 1]) && May(After(es[..|es| - 1]), es[|es| - 1]))
  }

  ghost function After(es: seq<Event>): System
    requires History(es)
    decreases |es|, 1
  {
    if es == [] then START else Happen(After(es[..|es| - 1]), es[|es| - 1])
  }

  // ---- Conservation ----

  /** Every published message is stored, outstanding at one process, or confirmed, and only one of these. */
  ghost predicate Conserved(s: System) {
    && s.stored <= s.published && s.confirmed <= s.published
    && s.stored !! s.confirmed
    && (forall p :: p in s.procs ==>
          && s.procs[p].outstanding <= s.published
          && s.procs[p].outstanding !! s.stored
          && s.procs[p].outstanding !! s.confirmed)
    && (forall p, q :: p in s.procs && q in s.procs && p != q ==> s.procs[p].outstanding !! s.procs[q].outstanding)
    && (forall m :: m in s.published ==>
          m in s.stored || m in s.confirmed || exists p :: p in s.procs && m in s.procs[p].outstanding)
  }

  /** Each process's own view fits the broker's. */
  ghost predicate LinksAgree(s: System) {
    forall p :: p in s.procs ==>
      && LInv(WINDOW, FLUSH_THRESHOLD, s.procs[p])
      && Elems(s.procs[p].client.confirmed) <= s.confirmed
      && Elems(s.procs[p].client.served) <= s.served
  }

  ghost predicate SInv(s: System) {
    Conserved(s) && LinksAgree(s) && s.confirmed <= s.served
  }

  /** A push from storage is one the link's own rules allow: redelivery is never to the same process. */
  lemma PushIsAllowed(s: System, p: nat, event: seq<Message>)
    requires SInv(s) && May(s, Push(p, event))
    ensures PushAllowed(WINDOW, s.procs[p], event)
  {
    hide LInv, NoDup, Share;
    var l := s.procs[p];
    forall m | m in event ensures m !in l.client.delivered {
      assert m in Elems(event);
      NotDelivered(l, m);
    }
  }

  lemma NotDelivered(l: Link, m: Message)
    requires LInv(WINDOW, FLUSH_THRESHOLD, l) && m !in l.outstanding && m !in Elems(l.client.confirmed)
    ensures m !in l.client.delivered
  {
    assert m !in Elems(l.client.delivered);
  }

  /** What one local step does, in the terms the system needs. */
  lemma LocalStep(l: Link, a: Action)
    requires LInv(WINDOW, FLUSH_THRESHOLD, l) && Enabled(l.client, a) && !a.Arrive?
    ensures var k := LExec(FLUSH_THRESHOLD, l, a);
            && LInv(WINDOW, FLUSH_THRESHOLD, k)
            && k.outstanding == l.outstanding - Elems(Accepted(l.client, a))
            && k.client.confirmed == l.client.confirmed + Accepted(l.client, a)
    ensures Elems(Accepted(l.client, a)) <= l.outstanding
    ensures Elems(Accepted(l.client, a)) <= Elems(l.client.served)
  {
    ConfirmInv(WINDOW, FLUSH_THRESHOLD, l, a);
    ConfirmStep(FLUSH_THRESHOLD, l.client, a);
    AcceptedIsServed(l, a);
  }

  lemma AcceptedIsServed(l: Link, a: Action)
    requires LInv(WINDOW, FLUSH_THRESHOLD, l) && Enabled(l.client, a) && !a.Arrive?
    ensures Elems(Accepted(l.client, a)) <= l.outstanding
    ensures Elems(Accepted(l.client, a)) <= Elems(l.client.served)
  {
    hide Inv, NoDup, Share, Enabled, Hand, Callback;
    OutstandingParts(WINDOW, FLUSH_THRESHOLD, l);
    HeldIsServed(FLUSH_THRESHOLD, l.client);
  }

  lemma HeldIsServed(t: nat, c: Client)
    requires Inv(t, c)
    ensures Elems(c.held) + Elems(Hand(c.pc)) <= Elems(c.served)
  {
    forall m | m in c.held || m in Hand(c.pc) ensures m in c.served {
      Copies(c, m);
      hide *;
      InCopies(c.held, m);
      InCopies(Hand(c.pc), m);
      InCopies(c.served, m);
    }
  }

  lemma HandleInv(s: System, p: nat, u: Uri)
    requires SInv(s) && p in s.procs
    ensures LInv(WINDOW, FLUSH_THRESHOLD, s.procs[p].(handles := s.procs[p].handles + {u}))
  {
    hide Inv, NoDup;
  }

  lemma JoinInv(s: System, e: Event)
    requires e.Spawn? || e.Open? || e.Publish?
    requires SInv(s) && May(s, e)
    ensures SInv(Happen(s, e))
  {
    hide LInv;
    match e
    case Spawn(p, worker) =>
      FreshInv(WINDOW, FLUSH_THRESHOLD, if worker then NEW_WORKER else NEW_BACKEND, {});
      var k := Happen(s, e);
      assert k.procs[p].outstanding == {};
      forall m | m in k.published
        ensures m in k.stored || m in k.confirmed || exists q :: q in k.procs && m in k.procs[q].outstanding
      {
        if m !in s.stored && m !in s.confirmed {
          var q :| q in s.procs && m in s.procs[q].outstanding;
          assert q in k.procs && m in k.procs[q].outstanding;
        }
      }
    case Open(p, u) =>
      HandleInv(s, p, u);
      SamePlaces(s, Happen(s, e));
    case Publish(p, m) =>
  }

  lemma SamePlaces(s: System, k: System)
    requires Conserved(s) && k.published == s.published && k.stored == s.stored && k.confirmed == s.confirmed
    requires k.procs.Keys == s.procs.Keys
    requires forall p :: p in s.procs ==> k.procs[p].outstanding == s.procs[p].outstanding
    ensures Conserved(k)
  {
    forall m | m in k.published
      ensures m in k.stored || m in k.confirmed || exists q :: q in k.procs && m in k.procs[q].outstanding
    {
      if m !in s.stored && m !in s.confirmed {
        var q :| q in s.procs && m in s.procs[q].outstanding;
        assert q in k.procs && m in k.procs[q].outstanding;
      }
    }
  }

  lemma PushInvariant(s: System, p: nat, event: seq<Message>)
    requires SInv(s) && May(s, Push(p, event))
    ensures SInv(Happen(s, Push(p, event)))
  {
    hide LInv, Inv, Share, NoDup, Exec;
    PushIsAllowed(s, p, event);
    PushInv(WINDOW, FLUSH_THRESHOLD, s.procs[p], event);
    ArriveKeepsHistory(s.procs[p].client, event);
    var k := Happen(s, Push(p, event));
    forall m | m in k.published
      ensures m in k.stored || m in k.confirmed || exists q :: q in k.procs && m in k.procs[q].outstanding
    {
      if m in s.stored {
        assert m in k.stored || m in k.procs[p].outstanding;
      } else if m !in s.confirmed {
        var q :| q in s.procs && m in s.procs[q].outstanding;
        assert q in k.procs && m in k.procs[q].outstanding;
      }
    }
  }

  lemma ArriveKeepsHistory(c: Client, event: seq<Message>)
    ensures var d := Exec(FLUSH_THRESHOLD, c, Arrive(event)); d.confirmed == c.confirmed && d.served == c.served
  {
  }

  lemma LocalInvariant(s: System, p: nat, a: Action)
    requires SInv(s) && May(s, Local(p, a))
    ensures SInv(Happen(s, Local(p, a)))
  {
    hide LInv, Exec, Accepted, Enabled;
    LocalStep(s.procs[p], a);
    var k := Happen(s, Local(p, a));
    forall m | m in k.published
      ensures m in k.stored || m in k.confirmed || exists q :: q in k.procs && m in k.procs[q].outstanding
    {
      if m !in s.stored && m !in s.confirmed {
        var q :| q in s.procs && m in s.procs[q].outstanding;
        assert q in k.procs && (m in k.procs[q].outstanding || m in k.confirmed);
      }
    }
  }

  lemma EndInvariant(s: System, e: Event)
    requires e.Leave? || e.Crash?
    requires SInv(s) && May(s, e)
    ensures SInv(Happen(s, e))
  {
    hide LInv;
    var k := Happen(s, e);
    forall m | m in k.published
      ensures m in k.stored || m in k.confirmed || exists q :: q in k.procs && m in k.procs[q].outstanding
    {
      if m !in s.stored && m !in s.confirmed {
        var q :| q in s.procs && m in s.procs[q].outstanding;
        assert q == e.p || q in k.procs;
      }
    }
  }

  lemma HappenInv(s: System, e: Event)
    requires SInv(s) && May(s, e)
    ensures SInv(Happen(s, e))
  {
    hide SInv, Happen, May;
    match e
    case Push(p, event) => PushInvariant(s, p, event);
    case Local(p, a) => LocalInvariant(s, p, a);
    case Leave(_) => EndInvariant(s, e);
    case Crash(_) => EndInvariant(s, e);
    case _ => JoinInv(s, e);
  }

  /** A message becomes confirmed only in a step whose state already has it served. */
  lemma ConfirmedWasServed(s: System, e: Event)
    requires SInv(s) && May(s, e)
    ensures forall m :: m in Happen(s, e).confirmed && m !in s.confirmed ==> m in s.served
  {
    hide LInv;
    if e.Local? {
      AcceptedIsServed(s.procs[e.p], e.a);
    }
  }

  lemma {:induction false} HistoryInv(es: seq<Event>)
    requires History(es)
    ensures SInv(After(es)) && DupInv(After(es))
  {
    hide SInv, DupInv, Happen, May;
    if es == [] {
      StartInv();
    } else {
      HistoryInv(es[..|es| - 1]);
      HappenInv(After(es[..|es| - 1]), es[|es| - 1]);
      HappenDup(After(es[..|es| - 1]), es[|es| - 1]);
    }
  }

  lemma StartInv()
    ensures SInv(START) && DupInv(START)
  {
    assert Pending(START) == {};
    assert Loose(START) == {};
  }

  // ---- Duplicate callback effects ----

  ghost predicate Busy(l: Link) {
    l.client.mode.Subscriber? && l.client.pc.InHand?
  }

  /** Messages whose callback is committed and whose confirm is the worker's next call. */
  ghost function Pending(s: System): set<Message> {
    set p | p in s.procs && Busy(s.procs[p]) :: s.procs[p].client.pc.m
  }

  /** Messages whose callback is committed and that the broker will deliver again. */
  ghost function Loose(s: System): set<Message> {
    Elems(s.effects) - s.confirmed - Pending(s)
  }

  ghost predicate DupInv(s: System) {
    && |s.effects| + |Loose(s)| <= |Elems(s.effects)| + s.crashes + s.badConfirms
    && forall p :: p in s.procs && Busy(s.procs[p]) ==> s.procs[p].client.pc.m in s.effects
  }

  lemma HandOutstanding(l: Link)
    requires LInv(WINDOW, FLUSH_THRESHOLD, l)
    ensures Elems(Hand(l.client.pc)) + Elems(Callback(l.client.pc)) <= l.outstanding
  {
    OutstandingParts(WINDOW, FLUSH_THRESHOLD, l);
  }

  /** No other process is about to confirm a message this one holds. */
  lemma PendingElsewhere(s: System, p: nat, m: Message)
    requires SInv(s) && p in s.procs && m in s.procs[p].outstanding
    ensures forall q :: q in s.procs && q != p && Busy(s.procs[q]) ==> s.procs[q].client.pc.m != m
  {
    hide LInv;
    forall q | q in s.procs && q != p && Busy(s.procs[q]) ensures s.procs[q].client.pc.m != m {
      HandOutstanding(s.procs[q]);
      assert s.procs[q].client.pc.m in Elems(Hand(s.procs[q].client.pc));
    }
  }

  /** A step without a new effect loosens at most the messages in `freed`. */
  lemma LooseGrowth(s: System, k: System, freed: set<Message>)
    requires DupInv(s) && k.effects == s.effects && s.confirmed <= k.confirmed
    requires Pending(s) <= Pending(k) + k.confirmed + freed
    requires k.crashes + k.badConfirms >= s.crashes + s.badConfirms + |freed|
    ensures |k.effects| + |Loose(k)| <= |Elems(k.effects)| + k.crashes + k.badConfirms
  {
    assert Loose(k) <= Loose(s) + freed;
    SubsetSize(Loose(k), Loose(s) + freed);
  }

  /** The step commits the callback of `m` at `p`. */
  lemma CommitDup(s: System, p: nat)
    requires SInv(s) && DupInv(s) && May(s, Local(p, Commit))
    ensures DupInv(Happen(s, Local(p, Commit)))
  {
    hide LInv, Pending, Loose;
    var k := Happen(s, Local(p, Commit));
    var m := s.procs[p].client.pc.m;
    CallbackUnconfirmed(s, p);
    CommittedPending(s, k, p, m);
    CommitCount(s, k, m);
  }

  lemma CallbackUnconfirmed(s: System, p: nat)
    requires SInv(s) && p in s.procs && s.procs[p].client.pc.InCallback?
    ensures var m := s.procs[p].client.pc.m; m !in s.confirmed && m !in Pending(s)
    ensures s.procs[p].client.mode.Subscriber?
  {
    hide LInv;
    CallbackMode(s.procs[p]);
    var m := s.procs[p].client.pc.m;
    HandOutstanding(s.procs[p]);
    assert m in Elems(Callback(s.procs[p].client.pc));
    PendingElsewhere(s, p, m);
  }

  lemma CallbackMode(l: Link)
    requires LInv(WINDOW, FLUSH_THRESHOLD, l) && l.client.pc.InCallback?
    ensures l.client.mode.Subscriber?
  {
  }

  lemma CommitCount(s: System, k: System, m: Message)
    requires DupInv(s) && k.effects == s.effects + [m] && k.confirmed == s.confirmed
    requires k.crashes == s.crashes && k.badConfirms == s.badConfirms
    requires m !in s.confirmed && m !in Pending(s) && Pending(k) == Pending(s) + {m}
    ensures |k.effects| + |Loose(k)| <= |Elems(k.effects)| + k.crashes + k.badConfirms
  {
    hide Pending;
    assert Elems(k.effects) == Elems(s.effects) + {m};
    if m in Elems(s.effects) {
      assert Elems(k.effects) == Elems(s.effects);
      assert m in Loose(s) && Loose(k) <= Loose(s) - {m};
      assert |Loose(s) - {m}| == |Loose(s)| - 1;
      SubsetSize(Loose(k), Loose(s) - {m});
    } else {
      assert Loose(k) <= Loose(s);
      SubsetSize(Loose(k), Loose(s));
    }
  }

  lemma CommittedPending(s: System, k: System, p: nat, m: Message)
    requires p in s.procs && !Busy(s.procs[p]) && k.procs.Keys == s.procs.Keys
    requires Busy(k.procs[p]) && k.procs[p].client.pc.m == m
    requires forall q :: q in s.procs && q != p ==> k.procs[q] == s.procs[q]
    ensures Pending(k) == Pending(s) + {m}
  {
    forall x | x in Pending(s) ensures x in Pending(k) {
      var q :| q in s.procs && Busy(s.procs[q]) && s.procs[q].client.pc.m == x;
      assert k.procs[q] == s.procs[q];
    }
    assert m in Pending(k);
  }

  /** Only the stepping process can stop being about to confirm. */
  lemma PendingKept(s: System, k: System, p: nat)
    requires forall q :: q in s.procs && q != p ==> q in k.procs && k.procs[q] == s.procs[q]
    ensures Pending(s) <= Pending(k) + (if p in s.procs && Busy(s.procs[p]) then {s.procs[p].client.pc.m} else {})
    ensures p in s.procs && p in k.procs && k.procs[p].client.pc == s.procs[p].client.pc
            && k.procs[p].client.mode == s.procs[p].client.mode
            ==> Pending(s) <= Pending(k)
  {
    forall x | x in Pending(s)
      ensures x in Pending(k) || (p in s.procs && Busy(s.procs[p]) && x == s.procs[p].client.pc.m)
    {
      var q :| q in s.procs && Busy(s.procs[q]) && s.procs[q].client.pc.m == x;
      if q != p {
        assert q in k.procs && Busy(k.procs[q]) && k.procs[q].client.pc.m == x;
      }
    }
    if p in s.procs && p in k.procs && k.procs[p].client.pc == s.procs[p].client.pc
       && k.procs[p].client.mode == s.procs[p].client.mode && Busy(s.procs[p])
    {
      assert s.procs[p].client.pc.m in Pending(k);
    }
  }

  /** What a local step other than a commit does to a process that may be about to confirm. */
  lemma QuietStep(c: Client, a: Action)
    requires Enabled(c, a) && !a.Commit? && !a.Arrive?
    ensures var d := Exec(FLUSH_THRESHOLD, c, a); var busy := c.mode.Subscriber? && c.pc.InHand?;
            && (d.mode.Subscriber? && d.pc.InHand? ==> busy && d.pc == c.pc)
            && (busy ==> a.Confirm? || (d.pc == c.pc && d.mode == c.mode))
            && (busy && a == Confirm(true) ==> Accepted(c, a) == [c.pc.m])
  {
  }

  lemma QuietDup(s: System, p: nat, a: Action)
    requires DupInv(s) && May(s, Local(p, a)) && !a.Commit?
    ensures DupInv(Happen(s, Local(p, a)))
  {
    hide Exec, Enabled, Accepted, Pending, Loose;
    var k := Happen(s, Local(p, a));
    QuietStep(s.procs[p].client, a);
    PendingKept(s, k, p);
    LooseGrowth(s, k, if a == Confirm(false) && Busy(s.procs[p]) then {s.procs[p].client.pc.m} else {});
  }

  /** Starting, opening, publishing and pushing change no process's place in its callback. */
  lemma OutsideDup(s: System, e: Event)
    requires e.Spawn? || e.Open? || e.Publish? || e.Push?
    requires DupInv(s) && May(s, e)
    ensures DupInv(Happen(s, e))
  {
    hide Pending, Loose, Share, NoDup;
    PendingKept(s, Happen(s, e), e.p);
    LooseGrowth(s, Happen(s, e), {});
  }

  /** A process that ends can free one message, and only a crash in mid-confirm does. */
  lemma EndDup(s: System, e: Event)
    requires e.Leave? || e.Crash?
    requires DupInv(s) && May(s, e)
    ensures DupInv(Happen(s, e))
  {
    hide Pending, Loose;
    var k := Happen(s, e);
    PendingKept(s, k, e.p);
    LooseGrowth(s, k, if e.Crash? && Busy(s.procs[e.p]) then {s.procs[e.p].client.pc.m} else {});
  }

  lemma HappenDup(s: System, e: Event)
    requires SInv(s) && DupInv(s) && May(s, e)
    ensures DupInv(Happen(s, e))
  {
    hide SInv, DupInv, Happen, May;
    match e
    case Local(p, a) =>
      if a.Commit? {
        CommitDup(s, p);
      } else {
        QuietDup(s, p, a);
      }
    case Leave(_) => EndDup(s, e);
    case Crash(_) => EndDup(s, e);
    case _ => OutsideDup(s, e);
  }

  // ---- The main results, over whole histories ----

  /**
   Nothing leaves the broker unserved. In every history, every published message is stored,
   outstanding at a single process, or confirmed, in exactly one of these ways; it is confirmed only
   if it entered a tuplestore or its callback committed, and that came first. For workers this is
   at-least-once delivery. For pulls it is less: a confirmed message is in the tuplestore of its call,
   and the call may still fail to return (`Calls.ConfirmsAccount`, `CallRuns.ConfirmedUnreturned`).
   */
  lemma NothingIsLost(es: seq<Event>)
    requires History(es)
    ensures Conserved(After(es))
    ensures After(es).confirmed <= After(es).served
    ensures es != [] ==>
              forall m :: m in After(es).confirmed && m !in After(es[..|es| - 1]).confirmed
                          ==> m in After(es[..|es| - 1]).served
  {
    HistoryInv(es);
    if es != [] {
      HistoryInv(es[..|es| - 1]);
      ConfirmedWasServed(After(es[..|es| - 1]), es[|es| - 1]);
    }
  }

  /** A worker ends other than through its shutdown flag, or a confirm of a worker fails. */
  ghost predicate WorkerFault(s: System, e: Event)
    requires May(s, e)
  {
    (e.Crash? || (e.Local? && e.a == Confirm(false))) && s.procs[e.p].client.mode.Subscriber?
  }

  ghost function WorkerFaults(es: seq<Event>): nat
    requires History(es)
  {
    if es == [] then 0
    else WorkerFaults(es[..|es| - 1]) + if WorkerFault(After(es[..|es| - 1]), es[|es| - 1]) then 1 else 0
  }

  lemma {:induction false} FaultsCounted(es: seq<Event>)
    requires History(es)
    ensures After(es).crashes + After(es).badConfirms == WorkerFaults(es)
  {
    hide LExec, Enabled, Accepted, Share, NoDup;
    if es != [] {
      FaultsCounted(es[..|es| - 1]);
    }
  }

  /**
   Duplicate effects. In every history the committed callbacks exceed the distinct messages
   they were for by at most the worker crashes plus the failed confirms.
   */
  lemma DuplicateBound(es: seq<Event>)
    requires History(es)
    ensures |After(es).effects| - |Elems(After(es).effects)| <= After(es).crashes + After(es).badConfirms == WorkerFaults(es)
  {
    HistoryInv(es);
    FaultsCounted(es);
  }

  /**
   However often workers are stopped by SIGTERM, and whatever happens to backends: no worker crash
   and no failed confirm of a worker, no duplicate effect.
   */
  lemma StopsAddNoDuplicates(es: seq<Event>)
    requires History(es) && WorkerFaults(es) == 0
    ensures NoDup(After(es).effects)
  {
    DuplicateBound(es);
    SizeNoDup(After(es).effects);
  }

  // ---- The duplicate bound is reached ----

  lemma Snoc(es: seq<Event>, e: Event)
    requires History(es) && May(After(es), e)
    ensures History(es + [e]) && After(es + [e]) == Happen(After(es), e)
  {
    assert (es + [e])[..|es + [e]| - 1] == es;
  }

  /** A stored message, and room for worker 0 to be started. */
  ghost predicate Waiting(s: System, m: Message) {
    m in s.stored && 0 !in s.procs
  }

  /** Worker 0 with one message on its way to the callback. */
  function Given(m: Message): Link {
    Link(NEW_WORKER.(arrived := [[m]], delivered := [m]), {m.uri}, {m})
  }

  /** The bookkeeping fields of two states agree, apart from storage, processes and effects. */
  ghost predicate SameFaults(s: System, k: System) {
    k.crashes == s.crashes && k.badConfirms == s.badConfirms
  }

  lemma Handed(es: seq<Event>, m: Message) returns (fs: seq<Event>)
    requires History(es) && Waiting(After(es), m)
    ensures History(fs)
    ensures var s, k := After(es), After(fs);
            && SameFaults(s, k) && k.effects == s.effects && k.stored == s.stored - {m}
            && 0 in k.procs && k.procs[0] == Given(m)
  {
    hide History, After;
    Snoc(es, Spawn(0, true));
    Snoc(es + [Spawn(0, true)], Open(0, m.uri));
    var f2 := es + [Spawn(0, true)] + [Open(0, m.uri)];
    assert After(f2).procs[0] == Link(NEW_WORKER, {m.uri}, {});
    OneMessage(m);
    Snoc(f2, Push(0, [m]));
    fs := f2 + [Push(0, [m])];
  }

  lemma OneMessage(m: Message)
    ensures NoDup([m]) && Elems([m]) == {m} && |Share({} + Elems([m]), m.uri)| <= WINDOW
  {
    assert Share({} + Elems([m]), m.uri) == {m};
  }

  lemma LocalAt(es: seq<Event>, l: Link, a: Action)
    requires History(es) && 0 in After(es).procs && After(es).procs[0] == l
    requires Enabled(l.client, a) && !a.Arrive? && !a.Confirm?
    ensures History(es + [Local(0, a)])
    ensures var s, k := After(es), After(es + [Local(0, a)]);
            && SameFaults(s, k) && k.stored == s.stored
            && k.effects == s.effects + (if a.Commit? then [l.client.pc.m] else [])
            && 0 in k.procs && k.procs[0] == LExec(FLUSH_THRESHOLD, l, a)
  {
    hide History, After, LExec, Enabled;
    Snoc(es, Local(0, a));
  }

  /** The worker's way from a delivered message to a committed callback. */
  lemma CallbackPath(m: Message) returns (l1: Link, l2: Link, l3: Link)
    ensures Enabled(Given(m).client, Check) && l1 == LExec(FLUSH_THRESHOLD, Given(m), Check)
    ensures Enabled(l1.client, Read) && l2 == LExec(FLUSH_THRESHOLD, l1, Read)
    ensures Enabled(l2.client, Take) && l3 == LExec(FLUSH_THRESHOLD, l2, Take)
    ensures l3.client.pc == InCallback(m) && l3.client.mode.Subscriber? && l3.outstanding == {m}
  {
    l1 := LExec(FLUSH_THRESHOLD, Given(m), Check);
    l2 := LExec(FLUSH_THRESHOLD, l1, Read);
    assert l2.client.current == [m];
    l3 := LExec(FLUSH_THRESHOLD, l2, Take);
  }

  /** A worker between the commit of its callback and the confirm. */
  ghost predicate CallbackDone(l: Link, m: Message) {
    l.outstanding == {m} && l.client.mode.Subscriber? && l.client.pc == InHand(m)
  }

  /** A worker takes a waiting message and commits its callback. */
  lemma Attempt(es: seq<Event>, m: Message) returns (fs: seq<Event>)
    requires History(es) && Waiting(After(es), m)
    ensures History(fs)
    ensures var s, k := After(es), After(fs);
            && SameFaults(s, k) && k.effects == s.effects + [m] && k.stored == s.stored - {m}
            && 0 in k.procs && CallbackDone(k.procs[0], m)
  {
    hide History, After, Given;
    var f0 := Handed(es, m);
    var l1, l2, l3 := CallbackPath(m);
    LocalAt(f0, Given(m), Check);
    LocalAt(f0 + [Local(0, Check)], l1, Read);
    LocalAt(f0 + [Local(0, Check)] + [Local(0, Read)], l2, Take);
    LocalAt(f0 + [Local(0, Check)] + [Local(0, Read)] + [Local(0, Take)], l3, Commit);
    fs := f0 + [Local(0, Check)] + [Local(0, Read)] + [Local(0, Take)] + [Local(0, Commit)];
  }

  /** The worker's way out after a failed confirm. */
  lemma StopPath(l: Link, m: Message) returns (l1: Link, l2: Link, l3: Link)
    requires CallbackDone(l, m)
    ensures Enabled(l.client, Confirm(false)) && l1 == LExec(FLUSH_THRESHOLD, l, Confirm(false))
    ensures Enabled(l1.client, Signal) && l2 == LExec(FLUSH_THRESHOLD, l1, Signal)
    ensures Enabled(l2.client, Check) && l3 == LExec(FLUSH_THRESHOLD, l2, Check)
    ensures l3.client.pc.Exiting? && l3.outstanding == {m}
  {
    l1 := LExec(FLUSH_THRESHOLD, l, Confirm(false));
    l2 := LExec(FLUSH_THRESHOLD, l1, Signal);
    l3 := LExec(FLUSH_THRESHOLD, l2, Check);
  }

  lemma ConfirmFails(es: seq<Event>, l: Link)
    requires History(es) && 0 in After(es).procs && After(es).procs[0] == l
    requires Enabled(l.client, Confirm(false)) && l.client.mode.Subscriber?
    ensures History(es + [Local(0, Confirm(false))])
    ensures var s, k := After(es), After(es + [Local(0, Confirm(false))]);
            && k.crashes == s.crashes && k.badConfirms == s.badConfirms + 1
            && k.stored == s.stored && k.effects == s.effects
            && 0 in k.procs && k.procs[0] == LExec(FLUSH_THRESHOLD, l, Confirm(false))
  {
    hide History, After, LExec, Enabled;
    Snoc(es, Local(0, Confirm(false)));
  }

  /** The confirm fails, the worker is stopped, and the message returns to storage. */
  lemma FailAndStop(es: seq<Event>, m: Message) returns (fs: seq<Event>)
    requires History(es) && 0 in After(es).procs && CallbackDone(After(es).procs[0], m)
    ensures History(fs) && Waiting(After(fs), m)
    ensures var s, k := After(es), After(fs);
            k.crashes == s.crashes && k.badConfirms == s.badConfirms + 1 && k.effects == s.effects
  {
    hide History, After, CallbackDone, LExec, Enabled;
    var l1, l2, l3 := StopPath(After(es).procs[0], m);
    BusyWorker(After(es).procs[0], m);
    ConfirmFails(es, After(es).procs[0]);
    fs := es + [Local(0, Confirm(false))];
    LocalAt(fs, l1, Signal);
    LocalAt(fs + [Local(0, Signal)], l2, Check);
    fs := fs + [Local(0, Signal)] + [Local(0, Check)];
    Snoc(fs, Leave(0));
    fs := fs + [Leave(0)];
  }

  lemma BusyWorker(l: Link, m: Message)
    requires CallbackDone(l, m)
    ensures l.client.mode.Subscriber?
  {
  }

  /**
   The bound is exact: for every number of crashes and every number of failed confirms there is a
   history in which each of them cost one duplicate effect.
   */
  lemma {:induction false} DuplicateBoundTight(crashes: nat, badConfirms: nat, m: Message) returns (es: seq<Event>)
    ensures History(es) && After(es).crashes == crashes && After(es).badConfirms == badConfirms
    ensures |After(es).effects| == crashes + badConfirms + 1 && Elems(After(es).effects) == {m}
    ensures 0 in After(es).procs && CallbackDone(After(es).procs[0], m)
    decreases crashes + badConfirms
  {
    hide History, After;
    if crashes > 0 {
      var fs := DuplicateBoundTight(crashes - 1, badConfirms, m);
      Snoc(fs, Crash(0));
      es := Attempt(fs + [Crash(0)], m);
    } else if badConfirms > 0 {
      var fs := DuplicateBoundTight(crashes, badConfirms - 1, m);
      fs := FailAndStop(fs, m);
      es := Attempt(fs, m);
    } else {
      var fs := Posted(m);
      es := Attempt(fs, m);
    }
  }

  lemma Posted(m: Message) returns (es: seq<Event>)
    ensures History(es) && Waiting(After(es), m)
    ensures After(es).effects == [] && After(es).crashes == 0 && After(es).badConfirms == 0
  {
    Snoc([], Spawn(1, false));
    Snoc([] + [Spawn(1, false)], Open(1, m.uri));
    Snoc([] + [Spawn(1, false)] + [Open(1, m.uri)], Publish(1, m));
    es := [] + [Spawn(1, false)] + [Open(1, m.uri)] + [Publish(1, m)];
  }
}

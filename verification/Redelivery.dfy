/**
 How often a message is pulled: the entries in the tuplestores of all backends. A call that is killed or
 raises takes its entries with it; what calls give back to their callers is in Calls.
 */
module Redelivery {
  import opened Messages
  import opened ClientMachine
  import opened Flow
  import opened Delivery

  // ---- What is counted ----

  /** The message an event puts into a tuplestore. */
  ghost function Entry(s: System, e: Event): seq<Message>
    requires May(s, e)
  {
    if e.Local? && e.a.Take? && !s.procs[e.p].client.mode.Subscriber? then [s.procs[e.p].client.current[0]] else []
  }

  /** All tuplestore entries of all backends, in order, whether their calls returned or not. */
  ghost function Entries(es: seq<Event>): seq<Message>
    requires History(es)
  {
    if es == [] then [] else Entries(es[..|es| - 1]) + Entry(After(es[..|es| - 1]), es[|es| - 1])
  }

  /**
   What can come back when a backend ends: what it gave up with a WARNING, and, in the middle of
   a statement, one message or a batch, which each failed flush of the statement widens by one.
   */
  function AtRisk(c: Client): nat {
    |c.givenUp| + if c.pc.Idle? then 0 else if c.mode.Batched? then FLUSH_THRESHOLD + c.badFlushes else 1
  }

  ghost function Risk(s: System, e: Event): nat
    requires May(s, e)
  {
    if (e.Leave? || e.Crash?) && !s.procs[e.p].client.mode.Subscriber? then AtRisk(s.procs[e.p].client) else 0
  }

  /** The sum of this over all backends that ended. */
  ghost function Exposed(es: seq<Event>): nat
    requires History(es)
  {
    if es == [] then 0 else Exposed(es[..|es| - 1]) + Risk(After(es[..|es| - 1]), es[|es| - 1])
  }

  // ---- Entries that can still be confirmed ----

  /** What a backend has served and not confirmed. */
  ghost function Owed(l: Link): set<Message> {
    if l.client.mode.Subscriber? then {} else Elems(l.client.served) * l.outstanding
  }

  ghost function AllOwed(s: System): set<Message> {
    set p, m | p in s.procs && m in Owed(s.procs[p]) :: m
  }

  /** Entries that the broker has again. */
  ghost function BackAtBroker(entries: seq<Message>, s: System): set<Message> {
    Elems(entries) - s.confirmed - AllOwed(s)
  }

  ghost predicate EntryInv(entries: seq<Message>, s: System, exposed: nat) {
    |entries| + |BackAtBroker(entries, s)| <= |Elems(entries)| + exposed
  }

  /** A step without a new entry gives the broker back at most the messages in `freed`. */
  lemma BackGrowth(entries: seq<Message>, s: System, k: System, freed: set<Message>)
    requires s.confirmed <= k.confirmed && AllOwed(s) <= AllOwed(k) + k.confirmed + freed
    ensures |BackAtBroker(entries, k)| <= |BackAtBroker(entries, s)| + |freed|
  {
    hide AllOwed;
    assert BackAtBroker(entries, k) <= BackAtBroker(entries, s) + freed;
    SubsetSize(BackAtBroker(entries, k), BackAtBroker(entries, s) + freed);
  }

  lemma OwedKept(s: System, k: System, p: nat, freed: set<Message>)
    requires forall q :: q in s.procs && q != p ==> q in k.procs && k.procs[q] == s.procs[q]
    requires p in s.procs ==> Owed(s.procs[p]) <= (if p in k.procs then Owed(k.procs[p]) else {}) + freed
    ensures AllOwed(s) <= AllOwed(k) + freed
  {
    hide Owed;
    forall m | m in AllOwed(s) ensures m in AllOwed(k) || m in freed {
      var q :| q in s.procs && m in Owed(s.procs[q]);
      if q != p {
        assert q in k.procs && m in Owed(k.procs[q]);
      } else if m !in freed {
        assert p in k.procs && m in Owed(k.procs[p]);
      }
    }
  }

  // ---- Steps that add no entry ----

  lemma QuietClient(c: Client, a: Action)
    requires Shape(c) && Enabled(c, a) && !(a.Take? && !c.mode.Subscriber?)
    ensures var d := Exec(FLUSH_THRESHOLD, c, a);
            d.mode.Subscriber? == c.mode.Subscriber? && c.served <= d.served
  {
  }

  lemma QuietOwed(l: Link, a: Action)
    requires Shape(l.client) && Enabled(l.client, a) && !(a.Take? && !l.client.mode.Subscriber?)
    ensures Owed(l) <= Owed(LExec(FLUSH_THRESHOLD, l, a)) + Elems(Accepted(l.client, a))
  {
    hide Exec, Enabled, Accepted, Shape;
    QuietClient(l.client, a);
  }

  lemma QuietEntry(entries: seq<Message>, s: System, p: nat, a: Action, exposed: nat)
    requires EntryInv(entries, s, exposed) && May(s, Local(p, a)) && Shape(s.procs[p].client)
    requires !(a.Take? && !s.procs[p].client.mode.Subscriber?)
    ensures EntryInv(entries, Happen(s, Local(p, a)), exposed)
  {
    hide Exec, LExec, Enabled, Accepted, Owed, AllOwed, Shape;
    var k := Happen(s, Local(p, a));
    QuietOwed(s.procs[p], a);
    OwedKept(s, k, p, Elems(Accepted(s.procs[p].client, a)));
    BackGrowth(entries, s, k, {});
  }

  lemma LiveShape(s: System, p: nat)
    requires SInv(s) && p in s.procs
    ensures Shape(s.procs[p].client)
  {
  }

  lemma PushOwed(l: Link, event: seq<Message>)
    ensures Owed(l) <= Owed(LExec(FLUSH_THRESHOLD, l, Arrive(event)))
  {
  }

  lemma OpenOwed(l: Link, u: Uri)
    ensures Owed(l.(handles := l.handles + {u})) == Owed(l)
  {
  }

  lemma OutsideEntry(entries: seq<Message>, s: System, e: Event, exposed: nat)
    requires e.Spawn? || e.Open? || e.Publish? || e.Push?
    requires EntryInv(entries, s, exposed) && May(s, e)
    ensures EntryInv(entries, Happen(s, e), exposed)
  {
    hide Exec, LExec, Enabled, Owed, AllOwed, Share, NoDup;
    if e.Push? {
      PushOwed(s.procs[e.p], e.event);
    } else if e.Open? {
      OpenOwed(s.procs[e.p], e.uri);
    }
    OwedKept(s, Happen(s, e), e.p, {});
    BackGrowth(entries, s, Happen(s, e), {});
  }

  // ---- The end of a process ----

  /** What a backend owes is in its builder, in its hand or given up. */
  lemma OwedBound(l: Link)
    requires LInv(WINDOW, FLUSH_THRESHOLD, l)
    ensures |Owed(l)| <= if l.client.mode.Subscriber? then 0 else AtRisk(l.client)
  {
    hide Inv, Share, NoDup, AtRisk, Hand;
    var c := l.client;
    var parts := c.held + Hand(c.pc) + c.givenUp;
    forall m | m in Elems(c.served) * l.outstanding ensures m in Elems(parts) {
      Unconfirmed(FLUSH_THRESHOLD, c, m);
      assert m in parts;
    }
    ElemsSize(parts);
    SubsetSize(Elems(c.served) * l.outstanding, Elems(parts));
    RiskSize(c);
  }

  lemma RiskSize(c: Client)
    requires Inv(FLUSH_THRESHOLD, c)
    ensures |c.held| + |Hand(c.pc)| + |c.givenUp| <= AtRisk(c)
  {
    WindowSize(FLUSH_THRESHOLD, c);
  }

  lemma EndEntry(entries: seq<Message>, s: System, e: Event, exposed: nat)
    requires e.Leave? || e.Crash?
    requires SInv(s) && EntryInv(entries, s, exposed) && May(s, e)
    ensures EntryInv(entries, Happen(s, e), exposed + Risk(s, e))
  {
    hide LInv, Owed, AllOwed, AtRisk;
    var k, owed := Happen(s, e), Owed(s.procs[e.p]);
    OwedBound(s.procs[e.p]);
    OwedKept(s, k, e.p, owed);
    BackGrowth(entries, s, k, owed);
  }

  // ---- A new entry ----

  lemma TakeOwed(l: Link)
    requires LInv(WINDOW, FLUSH_THRESHOLD, l) && Enabled(l.client, Take) && !l.client.mode.Subscriber?
    ensures Owed(LExec(FLUSH_THRESHOLD, l, Take)) == Owed(l) + {l.client.current[0]}
    ensures l.client.current[0] in l.outstanding && l.client.current[0] !in Owed(l)
  {
    TakenIsNew(WINDOW, FLUSH_THRESHOLD, l);
    hide Inv, LInv, Share, NoDup;
  }

  lemma OwedInOutstanding(l: Link)
    ensures Owed(l) <= l.outstanding
  {
  }

  lemma TakeFresh(s: System, p: nat)
    requires SInv(s) && May(s, Local(p, Take)) && !s.procs[p].client.mode.Subscriber?
    ensures var m := s.procs[p].client.current[0]; m !in s.confirmed && m !in AllOwed(s)
  {
    hide LInv, Owed;
    TakeOwed(s.procs[p]);
    var m := s.procs[p].client.current[0];
    forall q | q in s.procs ensures m !in Owed(s.procs[q]) {
      OwedInOutstanding(s.procs[q]);
    }
  }

  lemma OwedAdded(s: System, k: System, p: nat, m: Message)
    requires p in s.procs && k.procs.Keys == s.procs.Keys
    requires forall q :: q in s.procs && q != p ==> k.procs[q] == s.procs[q]
    requires Owed(k.procs[p]) == Owed(s.procs[p]) + {m}
    ensures AllOwed(k) >= AllOwed(s) + {m}
  {
    hide Owed;
    forall x | x in AllOwed(s) ensures x in AllOwed(k) {
      var q :| q in s.procs && x in Owed(s.procs[q]);
      assert q in k.procs && x in Owed(k.procs[q]);
    }
    assert p in k.procs && m in Owed(k.procs[p]);
  }

  lemma EntryCount(entries: seq<Message>, s: System, k: System, m: Message, exposed: nat)
    requires EntryInv(entries, s, exposed) && k.confirmed >= s.confirmed
    requires m !in s.confirmed && m !in AllOwed(s) && AllOwed(k) >= AllOwed(s) + {m}
    ensures EntryInv(entries + [m], k, exposed)
  {
    hide AllOwed;
    assert Elems(entries + [m]) == Elems(entries) + {m};
    if m in Elems(entries) {
      assert Elems(entries + [m]) == Elems(entries);
      assert m in BackAtBroker(entries, s);
      SubsetSize(BackAtBroker(entries + [m], k), BackAtBroker(entries, s) - {m});
    } else {
      SubsetSize(BackAtBroker(entries + [m], k), BackAtBroker(entries, s));
    }
  }

  lemma TakeEntry(entries: seq<Message>, s: System, p: nat, exposed: nat)
    requires May(s, Local(p, Take)) && !s.procs[p].client.mode.Subscriber? && EntryInv(entries, s, exposed) && SInv(s)
    ensures EntryInv(entries + Entry(s, Local(p, Take)), Happen(s, Local(p, Take)), exposed)
  {
    hide LInv, Owed, AllOwed, EntryInv;
    var k, m := Happen(s, Local(p, Take)), s.procs[p].client.current[0];
    TakeFresh(s, p);
    TakeOwed(s.procs[p]);
    OwedAdded(s, k, p, m);
    EntryCount(entries, s, k, m, exposed);
  }

  lemma HappenEntry(entries: seq<Message>, s: System, e: Event, exposed: nat)
    requires SInv(s) && EntryInv(entries, s, exposed) && May(s, e)
    ensures EntryInv(entries + Entry(s, e), Happen(s, e), exposed + Risk(s, e))
  {
    hide SInv, EntryInv, Happen, AtRisk;
    assert entries + [] == entries;
    if e.Leave? || e.Crash? {
      EndEntry(entries, s, e, exposed);
    } else if e.Local? {
      if e.a.Take? && !s.procs[e.p].client.mode.Subscriber? {
        TakeEntry(entries, s, e.p, exposed);
      } else {
        LiveShape(s, e.p);
        QuietEntry(entries, s, e.p, e.a, exposed);
      }
    } else {
      OutsideEntry(entries, s, e, exposed);
    }
  }

  lemma {:induction false} EntriesInv(es: seq<Event>)
    requires History(es)
    ensures EntryInv(Entries(es), After(es), Exposed(es))
  {
    if es == [] {
      assert BackAtBroker([], START) == {};
    } else {
      var front := es[..|es| - 1];
      EntriesInv(front);
      HistoryInv(front);
      hide SInv, EntryInv, Happen, May, Entry, Risk;
      HappenEntry(Entries(front), After(front), es[|es| - 1], Exposed(front));
    }
  }

  // ---- The main results, over whole histories ----

  /**
   Messages pulled more than once. In every history, with any number of backends, workers and crashes, the
   tuplestore entries exceed the distinct messages in them by at most what was at risk when backends ended.
   */
  lemma DuplicateEntries(es: seq<Event>)
    requires History(es)
    ensures |Entries(es)| - |Elems(Entries(es))| <= Exposed(es)
  {
    EntriesInv(es);
  }

  /** No backend ended inside a statement or after giving up a confirm: every entry is a different message. */
  lemma EachEntryOnce(es: seq<Event>)
    requires History(es) && Exposed(es) == 0
    ensures NoDup(Entries(es))
  {
    DuplicateEntries(es);
    SizeNoDup(Entries(es));
  }

  ghost predicate KilledInside(s: System, e: Event)
    requires May(s, e)
  {
    e.Crash? && !s.procs[e.p].client.mode.Subscriber? && !s.procs[e.p].client.pc.Idle?
  }

  /** Backends killed inside a statement. */
  ghost function Kills(es: seq<Event>): nat
    requires History(es)
  {
    if es == [] then 0
    else Kills(es[..|es| - 1]) + if KilledInside(After(es[..|es| - 1]), es[|es| - 1]) then 1 else 0
  }

  /** In no live process has a confirm failed so far. */
  ghost predicate NoFailure(s: System) {
    forall p :: p in s.procs ==> s.procs[p].client.givenUp == [] && FlushesGood(s.procs[p].client)
  }

  lemma HappenNoFailure(s: System, e: Event)
    requires SInv(s) && NoFailure(s) && May(s, e) && (e.Local? ==> Faultless(e.a))
    ensures NoFailure(Happen(s, e))
  {
    hide Conserved, LInv, Share, NoDup, Exec, Enabled, FlushesGood, Accepted;
    if e.Local? {
      LocalNoFailure(s.procs[e.p], e.a);
    } else if e.Push? {
      PushNoFailure(s.procs[e.p].client, e.event);
    } else if e.Spawn? {
      SpawnNoFailure();
    }
  }

  lemma KillRisk(s: System, e: Event)
    requires SInv(s) && NoFailure(s) && May(s, e)
    ensures Risk(s, e) <= if KilledInside(s, e) then FLUSH_THRESHOLD else 0
  {
    hide Conserved, LInv, FlushesGood, AtRisk;
    if e.Leave? || e.Crash? {
      SmallRisk(s.procs[e.p].client);
      EndPc(s.procs[e.p]);
    }
  }

  lemma LocalNoFailure(l: Link, a: Action)
    requires LInv(WINDOW, FLUSH_THRESHOLD, l) && Enabled(l.client, a) && Faultless(a)
    requires l.client.givenUp == [] && FlushesGood(l.client)
    ensures var d := LExec(FLUSH_THRESHOLD, l, a).client; d.givenUp == [] && FlushesGood(d)
  {
    hide FlushesGood;
    StepFlushesGood(FLUSH_THRESHOLD, l.client, a);
  }

  lemma PushNoFailure(c: Client, event: seq<Message>)
    requires c.givenUp == [] && FlushesGood(c)
    ensures var d := Exec(FLUSH_THRESHOLD, c, Arrive(event)); d.givenUp == [] && FlushesGood(d)
  {
  }

  lemma SpawnNoFailure()
    ensures FlushesGood(NEW_BACKEND) && FlushesGood(NEW_WORKER)
  {
  }

  lemma SmallRisk(c: Client)
    requires c.givenUp == [] && FlushesGood(c)
    ensures AtRisk(c) <= if c.pc.Idle? then 0 else FLUSH_THRESHOLD
  {
  }

  /** Only a worker leaves from its loop's end. */
  lemma EndPc(l: Link)
    requires LInv(WINDOW, FLUSH_THRESHOLD, l)
    ensures l.client.pc.Exiting? ==> l.client.mode.Subscriber?
  {
  }

  lemma {:induction false} KillsCost(es: seq<Event>)
    requires History(es) && forall e :: e in es && e.Local? ==> Faultless(e.a)
    ensures NoFailure(After(es)) && Exposed(es) <= FLUSH_THRESHOLD * Kills(es)
  {
    if es != [] {
      var front := es[..|es| - 1];
      KillsCost(front);
      HistoryInv(front);
      hide SInv, NoFailure, Happen, May, Risk, KilledInside;
      HappenNoFailure(After(front), es[|es| - 1]);
      KillRisk(After(front), es[|es| - 1]);
    }
  }

  /**
   While no confirm fails, only backends killed inside a statement have messages pulled again, at most 500
   each. The killed calls have returned none of them (`Calls.ReturnedOnce`).
   */
  lemma EntriesPerKill(es: seq<Event>)
    requires History(es) && forall e :: e in es && e.Local? ==> Faultless(e.a)
    ensures |Entries(es)| - |Elems(Entries(es))| <= FLUSH_THRESHOLD * Kills(es)
  {
    KillsCost(es);
    DuplicateEntries(es);
  }

  // ---- The bound per kill is reached ----

  ghost predicate AllFaultless(es: seq<Event>) {
    forall e :: e in es && e.Local? ==> Faultless(e.a)
  }

  /** A history that leads to `s`, the entries it has produced and the kills in it. */
  ghost predicate Tally(es: seq<Event>, s: System, entries: seq<Message>, kills: nat) {
    History(es) && After(es) == s && Entries(es) == entries && Kills(es) == kills && AllFaultless(es)
  }

  lemma TallyOn(es: seq<Event>, s: System, entries: seq<Message>, kills: nat, e: Event)
    requires Tally(es, s, entries, kills) && May(s, e) && (e.Local? ==> Faultless(e.a))
    ensures Tally(es + [e], Happen(s, e), entries + Entry(s, e), kills + if KilledInside(s, e) then 1 else 0)
  {
    hide May, Happen, Entry, KilledInside;
    assert (es + [e])[..|es + [e]| - 1] == es;
    assert (es + [e])[|es + [e]| - 1] == e;
  }

  lemma TallyQuiet(es: seq<Event>, s: System, entries: seq<Message>, kills: nat, e: Event)
    requires Tally(es, s, entries, kills) && May(s, e) && !e.Local? && !e.Crash?
    ensures Tally(es + [e], Happen(s, e), entries, kills)
  {
    hide Tally;
    TallyOn(es, s, entries, kills, e);
    assert entries + [] == entries;
  }

  /** Backend 0 has been pushed `ms` in one event and has taken and batched the first `i` of them. */
  ghost predicate Midway(l: Link, ms: seq<Message>, i: nat) {
    && i <= |ms| == FLUSH_THRESHOLD && l.outstanding == Elems(ms)
    && var c := l.client;
       c.mode.Batched? && c.current == ms[i..] && c.held == ms[..i] && c.wanted == |ms| - i
       && (if i < |ms| then c.pc.Receiving? else c.pc.FlushDue?)
  }

  lemma OneMore(l: Link, ms: seq<Message>, i: nat) returns (l1: Link, l2: Link)
    requires Midway(l, ms, i) && i < |ms|
    ensures Enabled(l.client, Take) && l1 == LExec(FLUSH_THRESHOLD, l, Take)
    ensures l.client.current[0] == ms[i] && !l.client.mode.Subscriber?
    ensures Enabled(l1.client, AddOk) && l2 == LExec(FLUSH_THRESHOLD, l1, AddOk)
    ensures Midway(l2, ms, i + 1)
  {
    l1 := LExec(FLUSH_THRESHOLD, l, Take);
    l2 := LExec(FLUSH_THRESHOLD, l1, AddOk);
  }

  /** Backend 0 takes one step of its own. */
  lemma LocalOn(es: seq<Event>, s: System, entries: seq<Message>, kills: nat, a: Action) returns (k: System)
    requires Tally(es, s, entries, kills) && 0 in s.procs && Enabled(s.procs[0].client, a) && !a.Arrive? && Faultless(a)
    ensures Tally(es + [Local(0, a)], k, entries + Entry(s, Local(0, a)), kills)
    ensures 0 in k.procs && k.procs[0] == LExec(FLUSH_THRESHOLD, s.procs[0], a)
  {
    hide Tally, LExec, Enabled, Faultless;
    TallyOn(es, s, entries, kills, Local(0, a));
    k := Happen(s, Local(0, a));
  }

  lemma {:induction false} TakeRest(es: seq<Event>, s: System, entries: seq<Message>, kills: nat, ms: seq<Message>, i: nat)
    returns (fs: seq<Event>, k: System)
    requires Tally(es, s, entries, kills) && 0 in s.procs && Midway(s.procs[0], ms, i)
    ensures Tally(fs, k, entries + ms[i..], kills) && 0 in k.procs && Midway(k.procs[0], ms, |ms|)
    decreases |ms| - i
  {
    hide Tally, LExec, Enabled;
    if i == |ms| {
      assert entries + ms[i..] == entries;
      fs, k := es, s;
    } else {
      var l1, l2 := OneMore(s.procs[0], ms, i);
      var s1 := LocalOn(es, s, entries, kills, Take);
      var s2 := LocalOn(es + [Local(0, Take)], s1, entries + [ms[i]], kills, AddOk);
      assert entries + [ms[i]] + [] == entries + [ms[i]];
      fs, k := TakeRest(es + [Local(0, Take)] + [Local(0, AddOk)], s2, entries + [ms[i]], kills, ms, i + 1);
      assert entries + [ms[i]] + ms[i + 1..] == entries + ms[i..];
    }
  }

  /** Different messages of one queue, a threshold's worth of them. */
  ghost predicate FullBatch(ms: seq<Message>, u: Uri) {
    |ms| == FLUSH_THRESHOLD && NoDup(ms) && forall m :: m in ms ==> m.uri == u
  }

  lemma FitsWindow(ms: seq<Message>, u: Uri)
    requires FullBatch(ms, u)
    ensures forall m :: m in ms ==> |Share({} + Elems(ms), m.uri)| <= WINDOW
  {
    ElemsSize(ms);
    forall m | m in ms ensures |Share({} + Elems(ms), m.uri)| <= WINDOW {
      SubsetSize(Share({} + Elems(ms), m.uri), Elems(ms));
    }
  }

  /** A new backend 0, the batch pushed to it, and its statement up to the first message. */
  lemma Restart(es: seq<Event>, s: System, entries: seq<Message>, kills: nat, ms: seq<Message>, u: Uri)
    returns (fs: seq<Event>, k: System)
    requires Tally(es, s, entries, kills) && 0 !in s.procs && Elems(ms) <= s.stored && FullBatch(ms, u)
    ensures Tally(fs, k, entries, kills) && 0 in k.procs && Midway(k.procs[0], ms, 0)
  {
    hide Tally, LExec, Enabled, Share, NoDup;
    FitsWindow(ms, u);
    TallyQuiet(es, s, entries, kills, Spawn(0, false));
    var s1, f1 := Happen(s, Spawn(0, false)), es + [Spawn(0, false)];
    TallyQuiet(f1, s1, entries, kills, Open(0, u));
    var s2, f2 := Happen(s1, Open(0, u)), f1 + [Open(0, u)];
    assert s2.procs[0] == Link(NEW_BACKEND, {u}, {}) by { assert {} + {u} == {u}; }
    TallyQuiet(f2, s2, entries, kills, Push(0, ms));
    var s3, f3 := Happen(s2, Push(0, ms)), f2 + [Push(0, ms)];
    var l0, l1, l2 := Opened(ms, u);
    assert s3.procs[0] == l0;
    var s4 := LocalOn(f3, s3, entries, kills, Begin(Batched, FLUSH_THRESHOLD));
    assert entries + [] == entries;
    k := LocalOn(f3 + [Local(0, Begin(Batched, FLUSH_THRESHOLD))], s4, entries, kills, Read);
    fs := f3 + [Local(0, Begin(Batched, FLUSH_THRESHOLD))] + [Local(0, Read)];
  }

  lemma Opened(ms: seq<Message>, u: Uri) returns (l0: Link, l1: Link, l2: Link)
    requires |ms| == FLUSH_THRESHOLD
    ensures Enabled(NEW_BACKEND, Arrive(ms)) && l0 == LExec(FLUSH_THRESHOLD, Link(NEW_BACKEND, {u}, {}), Arrive(ms))
    ensures Enabled(l0.client, Begin(Batched, FLUSH_THRESHOLD))
    ensures l1 == LExec(FLUSH_THRESHOLD, l0, Begin(Batched, FLUSH_THRESHOLD))
    ensures Enabled(l1.client, Read) && l2 == LExec(FLUSH_THRESHOLD, l1, Read) && Midway(l2, ms, 0)
  {
    l0 := LExec(FLUSH_THRESHOLD, Link(NEW_BACKEND, {u}, {}), Arrive(ms));
    assert l0.client.arrived == [ms] && l0.outstanding == Elems(ms);
    l1 := LExec(FLUSH_THRESHOLD, l0, Begin(Batched, FLUSH_THRESHOLD));
    l2 := LExec(FLUSH_THRESHOLD, l1, Read);
  }

  lemma {:induction false} PostAll(ms: seq<Message>, u: Uri, i: nat) returns (es: seq<Event>, s: System)
    requires FullBatch(ms, u) && i <= |ms|
    ensures Tally(es, s, [], 0) && 0 !in s.procs && 1 in s.procs && u in s.procs[1].handles
    ensures s.stored == s.published == Elems(ms[..i])
  {
    hide Tally, NoDup;
    if i == 0 {
      StartTally();
      TallyQuiet([], START, [], 0, Spawn(1, false));
      var s1, f1 := Happen(START, Spawn(1, false)), [] + [Spawn(1, false)];
      TallyQuiet(f1, s1, [], 0, Open(1, u));
      es, s := f1 + [Open(1, u)], Happen(s1, Open(1, u));
    } else {
      var f, k := PostAll(ms, u, i - 1);
      var m := ms[i - 1];
      NotEarlier(ms, i - 1);
      TallyQuiet(f, k, [], 0, Publish(1, m));
      es, s := f + [Publish(1, m)], Happen(k, Publish(1, m));
      assert ms[..i] == ms[..i - 1] + [m];
    }
  }

  lemma StartTally()
    ensures Tally([], START, [], 0)
  {
  }

  lemma NotEarlier(ms: seq<Message>, i: nat)
    requires NoDup(ms) && i < |ms|
    ensures ms[i] !in Elems(ms[..i])
  {
    assert ms == ms[..i] + [ms[i]] + ms[i + 1..];
    assert multiset(ms)[ms[i]] == multiset(ms[..i])[ms[i]] + 1 + multiset(ms[i + 1..])[ms[i]];
    InCopies(ms[..i], ms[i]);
  }

  /**
   The bound is exact: for every number of kills there is a history without a failing confirm in
   which each of them had a whole batch of 500 pulled again.
   */
  lemma {:induction false} EntriesPerKillTight(kills: nat, ms: seq<Message>, u: Uri) returns (es: seq<Event>)
    requires FullBatch(ms, u)
    ensures History(es) && AllFaultless(es) && Kills(es) == kills
    ensures |Entries(es)| - |Elems(Entries(es))| == FLUSH_THRESHOLD * kills
  {
    var s, entries;
    es, s, entries := KilledHistory(kills, ms, u);
    NoDupSize(ms);
  }

  lemma {:induction false} KilledHistory(kills: nat, ms: seq<Message>, u: Uri)
    returns (es: seq<Event>, s: System, entries: seq<Message>)
    requires FullBatch(ms, u)
    ensures Tally(es, s, entries, kills) && 0 in s.procs && Midway(s.procs[0], ms, |ms|)
    ensures |entries| == FLUSH_THRESHOLD * (kills + 1) && Elems(entries) == Elems(ms)
  {
    hide Tally, LExec, NoDup, Midway;
    if kills == 0 {
      es, s := PostAll(ms, u, |ms|);
      assert ms[..|ms|] == ms;
      entries := [];
    } else {
      es, s, entries := KilledHistory(kills - 1, ms, u);
      FlushIsDue(s.procs[0], ms);
      TallyOn(es, s, entries, kills - 1, Crash(0));
      assert entries + [] == entries;
      es, s := es + [Crash(0)], Happen(s, Crash(0));
    }
    es, s := Restart(es, s, entries, kills, ms, u);
    es, s := TakeRest(es, s, entries, kills, ms, 0);
    assert ms[0..] == ms;
    assert Elems(entries + ms) == Elems(entries) + Elems(ms);
    entries := entries + ms;
  }

  lemma FlushIsDue(l: Link, ms: seq<Message>)
    requires Midway(l, ms, |ms|)
    ensures l.outstanding == Elems(ms) && l.client.pc.FlushDue? && l.client.mode.Batched?
  {
  }
}

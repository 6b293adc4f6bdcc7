/** Histories that reach the bounds of Calls, and one in which a confirmed message is never given back. */
module CallRuns {
  import opened Messages
  import opened ClientMachine
  import opened Flow
  import opened Delivery
  import opened Calls

  /** A history that leads to `s` and its books. */
  ghost predicate Leads(es: seq<Event>, s: System, b: Ledger) {
    History(es) && After(es) == s && Book(es) == b
  }

  lemma On(es: seq<Event>, s: System, b: Ledger, e: Event)
    requires Leads(es, s, b) && May(s, e)
    ensures SameProcs(s, b) && Leads(es + [e], Happen(s, e), Noted(s, b, e))
  {
    hide May, Happen, Noted, SameProcs;
    assert (es + [e])[..|es + [e]| - 1] == es;
    assert (es + [e])[|es + [e]| - 1] == e;
  }

  /** Everything but storage, processes and the tab of backend 0 is as before. */
  ghost predicate SameRest(s: System, b: Ledger, k: System, d: Ledger) {
    && k.confirmed == s.confirmed && k.effects == s.effects
    && d == b.(tabs := d.tabs)
    && forall q :: q != 0 ==> (q in d.tabs <==> q in b.tabs) && (q in b.tabs ==> d.tabs[q] == b.tabs[q])
  }

  /** A message is waiting, and backend 0 is not running. */
  ghost predicate Waiting0(s: System, m: Message) {
    m in s.stored && 0 !in s.procs
  }

  /** Backend 0 with `m` pushed to it and nothing else. */
  function Pushed(m: Message): Link {
    Link(NEW_BACKEND.(arrived := [[m]], delivered := [m]), {m.uri}, {m})
  }

  lemma PushOne(es: seq<Event>, s: System, b: Ledger, m: Message) returns (fs: seq<Event>, k: System, d: Ledger)
    requires Leads(es, s, b) && Waiting0(s, m)
    ensures Leads(fs, k, d) && SameRest(s, b, k, d) && k.stored == s.stored - {m}
    ensures 0 in k.procs && 0 in d.tabs && k.procs[0] == Pushed(m) && d.tabs[0] == NO_TAB
  {
    hide Leads;
    On(es, s, b, Spawn(0, false));
    var s1, b1, f1 := Happen(s, Spawn(0, false)), Noted(s, b, Spawn(0, false)), es + [Spawn(0, false)];
    On(f1, s1, b1, Open(0, m.uri));
    var s2, b2, f2 := Happen(s1, Open(0, m.uri)), Noted(s1, b1, Open(0, m.uri)), f1 + [Open(0, m.uri)];
    assert s2.procs[0] == Link(NEW_BACKEND, {m.uri}, {});
    OneMessage(m);
    On(f2, s2, b2, Push(0, [m]));
    fs, k, d := f2 + [Push(0, [m])], Happen(s2, Push(0, [m])), Noted(s2, b2, Push(0, [m]));
    assert k.procs[0] == Pushed(m);
  }

  /** Backend 0 takes a step that confirms nothing and does not end its call. */
  lemma LocalOne(es: seq<Event>, s: System, b: Ledger, l: Link, a: Action) returns (k: System, d: Ledger)
    requires Leads(es, s, b) && 0 in s.procs && s.procs[0] == l && Enabled(l.client, a) && !l.client.mode.Subscriber?
    requires !a.Arrive? && !a.Raise? && !a.Flush? && a != Confirm(true) && !a.Commit? && !Returns(l.client, a)
    ensures Leads(es + [Local(0, a)], k, d) && SameRest(s, b, k, d) && k.stored == s.stored
    ensures 0 in b.tabs && 0 in d.tabs && d.tabs[0] == Tabbed(l.client, a, b.tabs[0])
    ensures 0 in k.procs && k.procs[0] == LExec(FLUSH_THRESHOLD, l, a)
  {
    hide Leads, LExec, Enabled, Returns, Tabbed;
    On(es, s, b, Local(0, a));
    k, d := Happen(s, Local(0, a)), Noted(s, b, Local(0, a));
  }

  /** Backend 0 in a call for one message, which it has put into its tuplestore. */
  ghost predicate Collected(l: Link, tab: Tab, m: Message) {
    && l.outstanding == {m} && l.client.pc == InHand(m) && l.client.mode.Immediate?
    && l.client.current == [] && l.client.held == [] && l.client.givenUp == [] && tab == NO_TAB.(rows := [m])
  }

  lemma CollectPath(m: Message) returns (l1: Link, l2: Link, l3: Link)
    ensures Enabled(Pushed(m).client, Begin(Immediate, 1)) && l1 == LExec(FLUSH_THRESHOLD, Pushed(m), Begin(Immediate, 1))
    ensures Enabled(l1.client, Read) && l2 == LExec(FLUSH_THRESHOLD, l1, Read)
    ensures Enabled(l2.client, Take) && l3 == LExec(FLUSH_THRESHOLD, l2, Take)
    ensures !Pushed(m).client.mode.Subscriber? && !l1.client.mode.Subscriber? && !l2.client.mode.Subscriber?
    ensures Tabbed(Pushed(m).client, Begin(Immediate, 1), NO_TAB) == NO_TAB && Tabbed(l1.client, Read, NO_TAB) == NO_TAB
    ensures Collected(l3, Tabbed(l2.client, Take, NO_TAB), m)
  {
    l1 := LExec(FLUSH_THRESHOLD, Pushed(m), Begin(Immediate, 1));
    l2 := LExec(FLUSH_THRESHOLD, l1, Read);
    assert l2.client.current == [m];
    l3 := LExec(FLUSH_THRESHOLD, l2, Take);
  }

  lemma Collect(es: seq<Event>, s: System, b: Ledger, m: Message) returns (fs: seq<Event>, k: System, d: Ledger)
    requires Leads(es, s, b) && Waiting0(s, m)
    ensures Leads(fs, k, d) && SameRest(s, b, k, d) && k.stored == s.stored - {m}
    ensures 0 in k.procs && 0 in d.tabs && Collected(k.procs[0], d.tabs[0], m)
  {
    hide Leads, LExec, Enabled, Tabbed, Pushed, Collected;
    var f0, s0, b0 := PushOne(es, s, b, m);
    var l1, l2, l3 := CollectPath(m);
    var s1, b1 := LocalOne(f0, s0, b0, Pushed(m), Begin(Immediate, 1));
    var f1 := f0 + [Local(0, Begin(Immediate, 1))];
    var s2, b2 := LocalOne(f1, s1, b1, l1, Read);
    k, d := LocalOne(f1 + [Local(0, Read)], s2, b2, l2, Take);
    fs := f1 + [Local(0, Read)] + [Local(0, Take)];
  }

  lemma PostOne(m: Message) returns (es: seq<Event>, s: System, b: Ledger)
    ensures Leads(es, s, b) && Waiting0(s, m) && s.confirmed == {} && s.effects == []
    ensures b == NO_CALLS.(tabs := map[1 := NO_TAB])
  {
    assert Leads([], START, NO_CALLS);
    hide Leads;
    On([], START, NO_CALLS, Spawn(1, false));
    var s1, b1, f1 := Happen(START, Spawn(1, false)), Noted(START, NO_CALLS, Spawn(1, false)), [] + [Spawn(1, false)];
    On(f1, s1, b1, Open(1, m.uri));
    var s2, b2, f2 := Happen(s1, Open(1, m.uri)), Noted(s1, b1, Open(1, m.uri)), f1 + [Open(1, m.uri)];
    On(f2, s2, b2, Publish(1, m));
    es, s, b := f2 + [Publish(1, m)], Happen(s2, Publish(1, m)), Noted(s2, b2, Publish(1, m));
  }

  // ---- A confirmed message that no one gets ----

  lemma ConfirmStepOf(l: Link, tab: Tab, m: Message)
    requires Collected(l, tab, m)
    ensures Enabled(l.client, Confirm(true)) && Accepted(l.client, Confirm(true)) == [m]
    ensures !Returns(l.client, Confirm(true)) && !l.client.mode.Subscriber?
    ensures Tabbed(l.client, Confirm(true), tab) == NO_TAB.(rows := [m], own := [m])
    ensures var k := LExec(FLUSH_THRESHOLD, l, Confirm(true));
            k.outstanding == {} && !k.client.mode.Subscriber? && k.client.pc.Receiving?
  {
  }

  /**
   At-least-once does not hold for pulls: the message is confirmed as soon as it is in the
   tuplestore, and a kill, or an exception, before the call returns takes the tuplestore along.
   */
  lemma ConfirmedUnreturned(m: Message, killed: bool) returns (es: seq<Event>)
    ensures History(es) && es != [] && es[|es| - 1] == (if killed then Crash(0) else Local(0, Raise))
    ensures var s, b := After(es), Book(es);
            && m in s.confirmed && m !in s.stored
            && b.returned == [] && s.effects == [] && AllOwn(b) == {} && b.spoiled == {m}
  {
    var s, b;
    es, s, b := PostOne(m);
    es, s, b := Collect(es, s, b, m);
    es, s, b := ConfirmCollected(es, s, b, m);
    if killed {
      es, s, b := Kill(es, s, b, m);
    } else {
      es, s, b := Cancel(es, s, b, m);
    }
  }

  /** The only row of the call has been confirmed. */
  ghost predicate Spoilable(s: System, b: Ledger, m: Message) {
    && 0 in s.procs && b.tabs.Keys == {0, 1} && b.tabs[0] == NO_TAB.(rows := [m], own := [m]) && b.tabs[1] == NO_TAB
    && s.procs[0].outstanding == {} && !s.procs[0].client.mode.Subscriber? && s.procs[0].client.pc.Receiving?
  }

  lemma ConfirmCollected(es: seq<Event>, s: System, b: Ledger, m: Message)
    returns (fs: seq<Event>, k: System, d: Ledger)
    requires Leads(es, s, b) && 0 in s.procs && 0 in b.tabs && Collected(s.procs[0], b.tabs[0], m)
    requires b.tabs.Keys == {0, 1} && b.tabs[1] == NO_TAB
    ensures Leads(fs, k, d) && Spoilable(k, d, m) && k.confirmed == s.confirmed + {m} && k.stored == s.stored
    ensures k.effects == s.effects && d.returned == b.returned && d.spoiled == b.spoiled
  {
    hide Leads, LExec, Enabled, Accepted, Returns, Tabbed, Collected;
    ConfirmStepOf(s.procs[0], b.tabs[0], m);
    var e := Local(0, Confirm(true));
    On(es, s, b, e);
    fs, k, d := es + [e], Happen(s, e), Noted(s, b, e);
    assert Elems([m]) == {m};
  }

  lemma Kill(es: seq<Event>, s: System, b: Ledger, m: Message) returns (fs: seq<Event>, k: System, d: Ledger)
    requires Leads(es, s, b) && Spoilable(s, b, m)
    ensures fs == es + [Crash(0)] && Leads(fs, k, d) && k.confirmed == s.confirmed && k.stored == s.stored
    ensures k.effects == s.effects && d.returned == b.returned && d.spoiled == b.spoiled + {m} && AllOwn(d) == {}
  {
    hide Leads;
    On(es, s, b, Crash(0));
    fs, k, d := es + [Crash(0)], Happen(s, Crash(0)), Noted(s, b, Crash(0));
    assert Elems([m]) == {m};
    assert d.tabs.Keys == {1} && d.tabs[1] == NO_TAB;
  }

  lemma Cancel(es: seq<Event>, s: System, b: Ledger, m: Message) returns (fs: seq<Event>, k: System, d: Ledger)
    requires Leads(es, s, b) && Spoilable(s, b, m)
    ensures fs == es + [Local(0, Raise)] && Leads(fs, k, d) && k.confirmed == s.confirmed && k.stored == s.stored
    ensures k.effects == s.effects && d.returned == b.returned && d.spoiled == b.spoiled + {m} && AllOwn(d) == {}
  {
    hide Leads, LExec;
    var e := Local(0, Raise);
    On(es, s, b, e);
    fs, k, d := es + [e], Happen(s, e), Noted(s, b, e);
    assert Elems([m]) == {m} && Elems([]) == {};
    assert d.tabs.Keys == {0, 1} && d.tabs[1] == NO_TAB && d.tabs[0] == NO_TAB.(dropped := [m]);
  }

  // ---- The bound on returns is reached ----

  lemma FailPath(l: Link, tab: Tab, m: Message) returns (l1: Link, l2: Link)
    requires Collected(l, tab, m)
    ensures Enabled(l.client, Confirm(false)) && l1 == LExec(FLUSH_THRESHOLD, l, Confirm(false))
    ensures Enabled(l1.client, End) && l2 == LExec(FLUSH_THRESHOLD, l1, End)
    ensures Returns(l1.client, End) && Accepted(l1.client, End) == [] && !Returns(l.client, Confirm(false))
    ensures !l.client.mode.Subscriber? && !l1.client.mode.Subscriber?
    ensures Tabbed(l.client, Confirm(false), tab) == tab && Tabbed(l1.client, End, tab) == NO_TAB.(returned := [m])
    ensures l2.client.pc.Idle? && l2.outstanding == {m} && l2.client.givenUp == [m]
  {
    l1 := LExec(FLUSH_THRESHOLD, l, Confirm(false));
    l2 := LExec(FLUSH_THRESHOLD, l1, End);
    assert tab.own + [] == tab.own;
  }

  /** Backend 0 after a call that returned `m` with a failed confirm. */
  ghost predicate Idling(l: Link, tab: Tab, m: Message) {
    l.client.pc.Idle? && l.outstanding == {m} && l.client.givenUp == [m] && tab == NO_TAB.(returned := [m])
  }

  /** The confirm fails, and the call returns the message all the same. */
  lemma FailAndReturn(es: seq<Event>, s: System, b: Ledger, m: Message) returns (fs: seq<Event>, k: System, d: Ledger)
    requires Leads(es, s, b) && 0 in s.procs && 0 in b.tabs && Collected(s.procs[0], b.tabs[0], m)
    ensures Leads(fs, k, d) && d.returned == b.returned + [m] && d.lost == b.lost
    ensures 0 in k.procs && 0 in d.tabs && Idling(k.procs[0], d.tabs[0], m)
  {
    hide Leads, LExec, Enabled, Accepted, Returns, Tabbed, Collected;
    var l1, l2 := FailPath(s.procs[0], b.tabs[0], m);
    var s1, b1 := LocalOne(es, s, b, s.procs[0], Confirm(false));
    fs := es + [Local(0, Confirm(false))];
    On(fs, s1, b1, Local(0, End));
    fs, k, d := fs + [Local(0, End)], Happen(s1, Local(0, End)), Noted(s1, b1, Local(0, End));
    RowsOf(b.tabs[0], s.procs[0], m);
  }

  /** Backend 0 ends, and the broker has the message again. */
  lemma LoseOne(es: seq<Event>, s: System, b: Ledger, m: Message) returns (fs: seq<Event>, k: System, d: Ledger)
    requires Leads(es, s, b) && 0 in s.procs && 0 in b.tabs && Idling(s.procs[0], b.tabs[0], m)
    ensures Leads(fs, k, d) && d.returned == b.returned && d.lost == b.lost + multiset{m} && Waiting0(k, m)
  {
    hide Leads;
    On(es, s, b, Leave(0));
    fs, k, d := es + [Leave(0)], Happen(s, Leave(0)), Noted(s, b, Leave(0));
    assert Elems([m]) * Elems([m]) == {m};
  }

  lemma RowsOf(tab: Tab, l: Link, m: Message)
    requires Collected(l, tab, m)
    ensures tab.rows == [m] && tab.own == []
  {
  }

  /** For every n there is a history in which a message given up n times is returned n + 1 times. */
  lemma {:induction false} ReturnedCountTight(n: nat, m: Message) returns (es: seq<Event>)
    ensures History(es) && Book(es).lost[m] == n && multiset(Book(es).returned)[m] == n + 1
    ensures |Book(es).lost| == n && |Book(es).returned| == n + 1 && forall x :: x in Book(es).returned ==> x == m
  {
    var s, b;
    es, s, b := LostTimes(n, m);
    es, s, b := Collect(es, s, b, m);
    es, s, b := FailAndReturn(es, s, b, m);
  }

  lemma {:induction false} LostTimes(n: nat, m: Message) returns (es: seq<Event>, s: System, b: Ledger)
    ensures Leads(es, s, b) && Waiting0(s, m) && b.lost[m] == n && multiset(b.returned)[m] == n
    ensures |b.lost| == n && |b.returned| == n && forall x :: x in b.returned ==> x == m
  {
    hide Leads;
    if n == 0 {
      es, s, b := PostOne(m);
    } else {
      es, s, b := LostTimes(n - 1, m);
      es, s, b := Collect(es, s, b, m);
      es, s, b := FailAndReturn(es, s, b, m);
      es, s, b := LoseOne(es, s, b, m);
    }
  }
}

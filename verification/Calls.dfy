/**
 What calls give back. bmq_consume collects its rows in a tuplestore that reaches the caller only
 when the call returns; a call that raises, or whose backend is killed, returns none of them, while
 the confirms it has already sent stay.
 */
module Calls {
  import opened Messages
  import opened ClientMachine
  import opened Flow
  import opened Delivery

  // ---- The books ----

  /** One process. */
  datatype Tab = Tab(
    rows: seq<Message>,       // tuplestore of the call in progress
    own: seq<Message>,        // what that call has confirmed
    returned: seq<Message>,   // rows of the calls that returned
    dropped: seq<Message>     // rows of the calls that raised
  )

  datatype Ledger = Ledger(
    tabs: map<nat, Tab>,
    returned: seq<Message>,    // rows of all calls that returned, in order
    kept: set<Message>,        // confirmed by calls that returned
    spoiled: set<Message>,     // confirmed by calls that raised or were killed
    handled: set<Message>,     // confirmed by workers
    lost: multiset<Message>    // returned, but given up with a WARNING, by backends that have ended
  )

  const NO_TAB := Tab([], [], [], [])
  const NO_CALLS := Ledger(map[], [], {}, {}, {}, multiset{})

  /** The step after which bmq_consume returns. */
  predicate Returns(c: Client, a: Action) {
    !c.mode.Subscriber? && ((a.End? && c.held == []) || (a.Flush? && c.pc.LastFlush?))
  }

  function Tabbed(c: Client, a: Action, tab: Tab): Tab
    requires Enabled(c, a)
  {
    if c.mode.Subscriber? then tab
    else if a.Take? then tab.(rows := tab.rows + [c.current[0]])
    else if a.Raise? then tab.(rows := [], own := [], dropped := tab.dropped + tab.rows)
    else if Returns(c, a) then tab.(rows := [], own := [], returned := tab.returned + tab.rows)
    else tab.(own := tab.own + Accepted(c, a))
  }

  ghost predicate SameProcs(s: System, b: Ledger) {
    b.tabs.Keys == s.procs.Keys
  }

  ghost function Noted(s: System, b: Ledger, e: Event): Ledger
    requires May(s, e) && SameProcs(s, b)
  {
    match e
    case Spawn(p, _) => b.(tabs := b.tabs[p := NO_TAB])
    case Local(p, a) =>
      var c, tab := s.procs[p].client, b.tabs[p];
      b.(tabs := b.tabs[p := Tabbed(c, a, tab)],
         returned := b.returned + (if Returns(c, a) then tab.rows else []),
         kept := b.kept + (if Returns(c, a) then Elems(tab.own + Accepted(c, a)) else {}),
         spoiled := b.spoiled + (if a.Raise? then Elems(tab.own) else {}),
         handled := b.handled + (if c.mode.Subscriber? then Elems(Accepted(c, a)) else {}))
    case Leave(p) => Closed(b, s.procs[p].client, p)
    case Crash(p) => Closed(b, s.procs[p].client, p)
    case _ => b
  }

  ghost function Closed(b: Ledger, c: Client, p: nat): Ledger
    requires p in b.tabs
  {
    b.(tabs := b.tabs - {p},
       spoiled := b.spoiled + Elems(b.tabs[p].own),
       lost := b.lost + multiset(Elems(b.tabs[p].returned) * Elems(c.givenUp)))
  }

  lemma NotedProcs(s: System, b: Ledger, e: Event)
    requires May(s, e) && SameProcs(s, b)
    ensures SameProcs(Happen(s, e), Noted(s, b, e))
  {
    hide LExec, Exec, Enabled, Accepted, Share, NoDup;
  }

  ghost function Book(es: seq<Event>): (b: Ledger)
    requires History(es)
    ensures SameProcs(After(es), b)
  {
    if es == [] then NO_CALLS
    else
      var front, e := es[..|es| - 1], es[|es| - 1];
      NotedProcs(After(front), Book(front), e);
      Noted(After(front), Book(front), e)
  }

  // ---- One process ----

  /** Every row a backend ever had is in one place; what a call holds or has confirmed is among its rows. */
  ghost predicate TabInv(c: Client, tab: Tab) {
    if c.mode.Subscriber? then tab == NO_TAB
    else
      && multiset(c.served) == multiset(tab.returned) + multiset(tab.dropped) + multiset(tab.rows)
      && (c.pc.Idle? ==> tab.rows == [] && tab.own == [])
      && (forall m :: m in c.held || m in Hand(c.pc) ==> m in tab.rows)
      && (forall m :: m in tab.own ==> m in tab.rows && m in c.confirmed)
      && (forall m :: m in tab.rows && m in c.confirmed ==> m in tab.own)
  }

  lemma TakeTab(c: Client, tab: Tab)
    requires TabInv(c, tab) && Shape(c) && Enabled(c, Take)
    requires c.current[0] !in c.confirmed
    ensures TabInv(Exec(FLUSH_THRESHOLD, c, Take), Tabbed(c, Take, tab))
  {
    hide Accepted, Returns;
  }

  lemma EndStep(c: Client, a: Action)
    requires Shape(c) && Enabled(c, a) && (a.Raise? || Returns(c, a))
    ensures var d := Exec(FLUSH_THRESHOLD, c, a);
            && !a.Take? && !c.mode.Subscriber? && d.mode == c.mode && d.pc.Idle? && d.held == []
            && d.served == c.served && (a.Raise? ==> d.confirmed == c.confirmed)
  {
  }

  lemma EndTab(c: Client, a: Action, tab: Tab)
    requires TabInv(c, tab) && Shape(c) && Enabled(c, a)
    requires a.Raise? || Returns(c, a)
    ensures TabInv(Exec(FLUSH_THRESHOLD, c, a), Tabbed(c, a, tab))
  {
    hide Exec, Enabled, Accepted, Returns, Shape;
    EndStep(c, a);
  }

  /** Any other step of a backend. */
  ghost predicate Plain(c: Client, a: Action) {
    Shape(c) && Enabled(c, a) && !c.mode.Subscriber? && !a.Take? && !a.Raise? && !Returns(c, a)
  }

  lemma PlainStep(c: Client, a: Action)
    requires Plain(c, a)
    ensures var d := Exec(FLUSH_THRESHOLD, c, a);
            && d.served == c.served && !d.mode.Subscriber? && (d.pc.Idle? ==> c.pc.Idle?)
            && d.confirmed == c.confirmed + Accepted(c, a)
    ensures c.pc.Idle? ==> Accepted(c, a) == []
    ensures forall m :: m in Accepted(c, a) ==> m in c.held || m in Hand(c.pc)
  {
  }

  lemma PlainHolds(c: Client, a: Action)
    requires Plain(c, a)
    ensures var d := Exec(FLUSH_THRESHOLD, c, a);
            forall m :: m in d.held || m in Hand(d.pc) ==> m in c.held || m in Hand(c.pc)
  {
  }

  lemma PlainTab(c: Client, a: Action, tab: Tab)
    requires TabInv(c, tab) && Plain(c, a)
    ensures TabInv(Exec(FLUSH_THRESHOLD, c, a), Tabbed(c, a, tab))
  {
    PlainStep(c, a);
    PlainHolds(c, a);
    hide Shape, Enabled, Exec, Accepted, Returns, Hand;
  }

  lemma WorkerTab(c: Client, a: Action, tab: Tab)
    requires TabInv(c, tab) && Shape(c) && Enabled(c, a) && c.mode.Subscriber?
    ensures TabInv(Exec(FLUSH_THRESHOLD, c, a), Tabbed(c, a, tab))
  {
  }

  lemma LocalTab(c: Client, a: Action, tab: Tab)
    requires TabInv(c, tab) && Shape(c) && Enabled(c, a)
    requires a.Take? ==> c.current[0] !in c.confirmed
    ensures TabInv(Exec(FLUSH_THRESHOLD, c, a), Tabbed(c, a, tab))
  {
    hide TabInv, Shape, Enabled, Exec, Tabbed, Returns, Accepted;
    if c.mode.Subscriber? {
      WorkerTab(c, a, tab);
    } else if a.Take? {
      TakeTab(c, tab);
    } else if a.Raise? || Returns(c, a) {
      EndTab(c, a, tab);
    } else {
      PlainTab(c, a, tab);
    }
  }

  /** The tab of a process after a run of its own steps. */
  function TabAfter(c: Client, tab: Tab, acts: seq<Action>): Tab
    requires Valid(FLUSH_THRESHOLD, c, acts)
  {
    if acts == [] then tab
    else
      var front := acts[..|acts| - 1];
      Tabbed(Run(FLUSH_THRESHOLD, c, front), acts[|acts| - 1], TabAfter(c, tab, front))
  }

  /** A run without exceptions from one call boundary to another returns everything it has served. */
  lemma RowsReturned(c: Client, tab: Tab, acts: seq<Action>)
    requires Inv(FLUSH_THRESHOLD, c) && c.pc.Idle? && TabInv(c, tab) && Valid(FLUSH_THRESHOLD, c, acts)
    requires (forall a :: a in acts ==> !a.Raise?) && Run(FLUSH_THRESHOLD, c, acts).pc.Idle?
    ensures var d := Run(FLUSH_THRESHOLD, c, acts);
            && c.served <= d.served
            && TabAfter(c, tab, acts) == tab.(returned := tab.returned + d.served[|c.served|..])
  {
    RowsInOrder(c, tab, acts);
  }

  /** What has been served since `c0` is the rows returned since then, then the tuplestore. */
  ghost predicate RowsSince(c0: Client, tab0: Tab, c: Client, tab: Tab) {
    && !c.mode.Subscriber? && c0.served <= c.served && tab.dropped == tab0.dropped
    && tab.returned + tab.rows == tab0.returned + c.served[|c0.served|..]
    && (c.pc.Idle? ==> tab.rows == [] && tab.own == [])
  }

  lemma RowsStep(c0: Client, tab0: Tab, c: Client, a: Action, tab: Tab)
    requires RowsSince(c0, tab0, c, tab) && Shape(c) && Enabled(c, a) && !a.Raise?
    ensures RowsSince(c0, tab0, Exec(FLUSH_THRESHOLD, c, a), Tabbed(c, a, tab))
  {
    if a.Take? {
      hide Accepted, Returns;
      assert tab.returned + (tab.rows + [c.current[0]]) == tab.returned + tab.rows + [c.current[0]];
    } else if Returns(c, a) {
      EndStep(c, a);
      hide Exec, Enabled, Accepted, Returns;
    } else {
      PlainStep(c, a);
      hide Exec, Enabled, Accepted, Returns, Shape;
    }
  }

  lemma {:induction false} RowsInOrder(c: Client, tab: Tab, acts: seq<Action>)
    requires Inv(FLUSH_THRESHOLD, c) && c.pc.Idle? && TabInv(c, tab) && Valid(FLUSH_THRESHOLD, c, acts)
    requires forall a :: a in acts ==> !a.Raise?
    ensures RowsSince(c, tab, Run(FLUSH_THRESHOLD, c, acts), TabAfter(c, tab, acts))
  {
    if acts != [] {
      var front := acts[..|acts| - 1];
      RowsInOrder(c, tab, front);
      RunInv(FLUSH_THRESHOLD, c, front);
      hide RowsSince, TabInv, Exec, Enabled, Tabbed;
      RowsStep(c, tab, Run(FLUSH_THRESHOLD, c, front), acts[|acts| - 1], TabAfter(c, tab, front));
    }
  }

  // ---- All processes ----

  ghost predicate TabsInv(s: System, b: Ledger) {
    SameProcs(s, b) && forall p :: p in s.procs ==> TabInv(s.procs[p].client, b.tabs[p])
  }

  /** No message has been delivered to two processes that are alive. */
  ghost predicate Apart(s: System) {
    forall p, q :: p in s.procs && q in s.procs && p != q ==>
                     Elems(s.procs[p].client.delivered) !! Elems(s.procs[q].client.delivered)
  }

  lemma LiveTab(s: System, p: nat, a: Action)
    requires SInv(s) && May(s, Local(p, a))
    ensures Shape(s.procs[p].client)
    ensures a.Take? ==> s.procs[p].client.current[0] !in s.procs[p].client.confirmed
    ensures a.Take? ==> var m := s.procs[p].client.current[0];
                        m in s.procs[p].outstanding && m !in s.procs[p].client.served
  {
    hide Conserved, Share, Exec;
    if a.Take? {
      TakenIsNew(WINDOW, FLUSH_THRESHOLD, s.procs[p]);
      ConfirmedDelivered(FLUSH_THRESHOLD, s.procs[p].client);
      assert s.procs[p].client.current[0] !in Elems(s.procs[p].client.served);
    }
  }

  lemma OneTab(s: System, b: Ledger, k: System, d: Ledger, p: nat)
    requires TabsInv(s, b) && SameProcs(k, d)
    requires forall q :: q in k.procs && q != p ==> q in s.procs && k.procs[q] == s.procs[q] && d.tabs[q] == b.tabs[q]
    requires p in k.procs ==> TabInv(k.procs[p].client, d.tabs[p])
    ensures TabsInv(k, d)
  {
    hide TabInv;
  }

  lemma LocalTabs(s: System, b: Ledger, p: nat, a: Action)
    requires SInv(s) && TabsInv(s, b) && May(s, Local(p, a))
    ensures TabsInv(Happen(s, Local(p, a)), Noted(s, b, Local(p, a)))
  {
    hide SInv, Exec, Enabled, Accepted, Tabbed, Returns, TabInv, Shape;
    LiveTab(s, p, a);
    LocalTab(s.procs[p].client, a, b.tabs[p]);
    OneTab(s, b, Happen(s, Local(p, a)), Noted(s, b, Local(p, a)), p);
  }

  lemma NotedTabs(s: System, b: Ledger, e: Event)
    requires SInv(s) && TabsInv(s, b) && May(s, e)
    ensures TabsInv(Happen(s, e), Noted(s, b, e))
  {
    hide SInv, Exec, Enabled, Accepted, Tabbed, Returns, TabInv, Shape, Share, NoDup;
    if e.Local? {
      LocalTabs(s, b, e.p, e.a);
    } else {
      NotedProcs(s, b, e);
      if e.Spawn? {
        NewTab(if e.worker then NEW_WORKER else NEW_BACKEND);
      } else if e.Push? {
        PushTab(s.procs[e.p].client, e.event, b.tabs[e.p]);
      }
      OneTab(s, b, Happen(s, e), Noted(s, b, e), e.p);
    }
  }

  lemma NewTab(start: Client)
    requires start in {NEW_BACKEND, NEW_WORKER}
    ensures TabInv(start, NO_TAB)
  {
  }

  lemma PushTab(c: Client, event: seq<Message>, tab: Tab)
    requires TabInv(c, tab)
    ensures TabInv(Exec(FLUSH_THRESHOLD, c, Arrive(event)), tab)
  {
  }

  /** What a live process was ever delivered is outstanding at it or confirmed. */
  lemma DeliveredPlaces(s: System, p: nat)
    requires SInv(s) && p in s.procs
    ensures Elems(s.procs[p].client.delivered) <= s.procs[p].outstanding + s.confirmed
    ensures Elems(s.procs[p].client.delivered) !! s.stored
  {
    hide Inv, NoDup, Share;
  }

  lemma HappenApart(s: System, e: Event)
    requires SInv(s) && Apart(s) && May(s, e)
    ensures Apart(Happen(s, e))
  {
    hide SInv, Exec, Enabled, Accepted, Shape, Share, NoDup;
    if e.Local? {
      LiveTab(s, e.p, e.a);
      AcceptedIsConfirmed(FLUSH_THRESHOLD, s.procs[e.p].client, e.a);
    } else if e.Push? {
      DeliveredPush(s.procs[e.p].client, e.event);
      forall q | q in s.procs ensures Elems(s.procs[q].client.delivered) !! Elems(e.event) {
        DeliveredPlaces(s, q);
      }
    }
  }

  lemma DeliveredPush(c: Client, event: seq<Message>)
    ensures var d := Exec(FLUSH_THRESHOLD, c, Arrive(event));
            d.delivered == c.delivered + event && Elems(d.delivered) == Elems(c.delivered) + Elems(event)
  {
  }

  // ---- Where the rows of a process are ----

  lemma RowCopies(l: Link, tab: Tab, m: Message)
    requires LInv(WINDOW, FLUSH_THRESHOLD, l) && TabInv(l.client, tab) && !l.client.mode.Subscriber?
    ensures multiset(tab.returned)[m] + multiset(tab.dropped)[m] + multiset(tab.rows)[m] <= 1
    ensures m in tab.returned || m in tab.rows ==> m in l.client.delivered
    ensures m in tab.returned || m in tab.rows ==> m in l.outstanding || m in l.client.confirmed
  {
    hide Share, Hand, BuilderBound, EffectOrder, ConfirmOrder, Shape, Callback, Flat;
    Copies(l.client, m);
    assert multiset(l.client.delivered)[m] <= 1;
    InCopies(tab.returned, m);
    InCopies(tab.rows, m);
    InCopies(l.client.delivered, m);
    assert m in l.client.delivered ==> m in Elems(l.client.delivered);
  }

  /** What a backend still has to confirm of the rows its calls returned, it has given up. */
  lemma OwedIsGivenUp(l: Link, tab: Tab, m: Message)
    requires LInv(WINDOW, FLUSH_THRESHOLD, l) && TabInv(l.client, tab)
    requires m in tab.returned && m in l.outstanding
    ensures m in l.client.givenUp
  {
    RowCopies(l, tab, m);
    InCopies(tab.returned, m);
    InCopies(tab.rows, m);
    ReturnedServed(l.client, tab, m);
    Unconfirmed(FLUSH_THRESHOLD, l.client, m);
  }

  lemma ReturnedServed(c: Client, tab: Tab, m: Message)
    requires TabInv(c, tab) && m in tab.returned
    ensures m in c.served && !c.mode.Subscriber?
  {
    InCopies(tab.returned, m);
    InCopies(c.served, m);
  }

  // ---- The account of confirms ----

  /** Confirmed by calls still in progress. */
  ghost function AllOwn(b: Ledger): set<Message> {
    set p, m | p in b.tabs && m in b.tabs[p].own :: m
  }

  /** Every confirmed message was confirmed in one place; calls that returned gave back what they confirmed. */
  ghost predicate AccountInv(s: System, b: Ledger) {
    && s.confirmed == b.kept + b.spoiled + b.handled + AllOwn(b)
    && b.kept !! b.spoiled && b.kept !! b.handled && b.spoiled !! b.handled
    && (forall p :: p in b.tabs ==> Elems(b.tabs[p].own) !! b.kept + b.spoiled + b.handled)
    && (forall p, q :: p in b.tabs && q in b.tabs && p != q ==> Elems(b.tabs[p].own) !! Elems(b.tabs[q].own))
    && b.kept <= Elems(b.returned) && b.handled <= Elems(s.effects)
  }

  function OwnOf(b: Ledger, p: nat): set<Message> {
    if p in b.tabs then Elems(b.tabs[p].own) else {}
  }

  /** What one process confirms goes to its call in progress or to one of the three classes. */
  lemma AccountStep(s: System, b: Ledger, k: System, d: Ledger, p: nat,
                    accepted: set<Message>, kept: set<Message>, spoiled: set<Message>, handled: set<Message>)
    requires AccountInv(s, b) && k.confirmed == s.confirmed + accepted && accepted !! s.confirmed
    requires d.kept == b.kept + kept && d.spoiled == b.spoiled + spoiled && d.handled == b.handled + handled
    requires forall q :: q != p ==> (q in d.tabs <==> q in b.tabs) && (q in b.tabs ==> d.tabs[q] == b.tabs[q])
    requires OwnOf(b, p) + accepted == OwnOf(d, p) + kept + spoiled + handled
    requires OwnOf(d, p) !! kept + spoiled + handled && kept !! spoiled && kept !! handled && spoiled !! handled
    requires Elems(b.returned) <= Elems(d.returned) && kept <= Elems(d.returned)
    requires Elems(s.effects) <= Elems(k.effects) && handled <= Elems(k.effects)
    ensures AccountInv(k, d)
  {
    OwnParts(b, p);
    OwnParts(d, p);
    assert OthersOwn(b, p) == OthersOwn(d, p);
    assert forall q :: q in b.tabs && q != p ==> Elems(b.tabs[q].own) <= OthersOwn(b, p);
    OthersApart(s, b, p);
    hide AllOwn, OthersOwn;
    forall q | q in d.tabs ensures Elems(d.tabs[q].own) !! d.kept + d.spoiled + d.handled {
      if q == p {
        assert Elems(d.tabs[q].own) == OwnOf(d, p);
      }
    }
    forall q, r | q in d.tabs && r in d.tabs && q != r ensures Elems(d.tabs[q].own) !! Elems(d.tabs[r].own) {
      if q == p {
        assert Elems(d.tabs[q].own) == OwnOf(d, p);
      } else if r == p {
        assert Elems(d.tabs[r].own) == OwnOf(d, p);
      }
    }
  }

  ghost function OthersOwn(b: Ledger, p: nat): set<Message> {
    set q, m | q in b.tabs && q != p && m in b.tabs[q].own :: m
  }

  lemma OwnParts(b: Ledger, p: nat)
    ensures AllOwn(b) == OwnOf(b, p) + OthersOwn(b, p)
  {
  }

  lemma OthersApart(s: System, b: Ledger, p: nat)
    requires AccountInv(s, b)
    ensures OthersOwn(b, p) !! OwnOf(b, p) && OthersOwn(b, p) !! b.kept + b.spoiled + b.handled
    ensures OthersOwn(b, p) <= s.confirmed && OwnOf(b, p) <= s.confirmed
  {
    OwnParts(b, p);
    forall m | m in OthersOwn(b, p) ensures m !in OwnOf(b, p) && m !in b.kept + b.spoiled + b.handled {
      var q :| q in b.tabs && q != p && m in b.tabs[q].own;
      assert m in Elems(b.tabs[q].own);
    }
  }

  lemma OwnStep(c: Client, a: Action, tab: Tab)
    requires TabInv(c, tab) && Shape(c) && Enabled(c, a)
    ensures var own, accepted, after := Elems(tab.own), Elems(Accepted(c, a)), Elems(Tabbed(c, a, tab).own);
            && Elems(tab.own + Accepted(c, a)) == own + accepted
            && (c.mode.Subscriber? ==> own == {} && after == {} && !a.Raise? && !Returns(c, a))
            && (a.Raise? ==> accepted == {} && after == {} && !Returns(c, a))
            && (Returns(c, a) ==> after == {} && own + accepted <= Elems(tab.rows))
            && (!c.mode.Subscriber? && !a.Raise? && !Returns(c, a) ==> after == own + accepted)
  {
    OwnAccepted(c, a, tab);
    hide Exec, Enabled, Shape;
  }

  lemma OwnAccepted(c: Client, a: Action, tab: Tab)
    requires TabInv(c, tab) && Shape(c) && Enabled(c, a)
    ensures a.Take? || a.Raise? ==> Accepted(c, a) == []
    ensures c.mode.Subscriber? ==> !a.Raise? && tab == NO_TAB
    ensures !c.mode.Subscriber? ==> forall m :: m in Accepted(c, a) ==> m in tab.rows
    ensures !c.mode.Subscriber? ==> forall m :: m in tab.own ==> m in tab.rows
  {
  }

  /** A confirm of a worker is for a message whose callback committed. */
  lemma WorkerAccepts(s: System, p: nat, a: Action)
    requires SInv(s) && DupInv(s) && May(s, Local(p, a)) && s.procs[p].client.mode.Subscriber?
    ensures Elems(Accepted(s.procs[p].client, a)) <= Elems(s.effects)
  {
    hide Conserved, Share, NoDup, Exec, BuilderBound, DeliveryAccount, EffectOrder, ConfirmAccount, ConfirmOrder;
    var c := s.procs[p].client;
    if a == Confirm(true) {
      assert Busy(s.procs[p]);
    }
  }

  lemma AcceptsOutstanding(s: System, p: nat, a: Action)
    requires SInv(s) && May(s, Local(p, a))
    ensures Elems(Accepted(s.procs[p].client, a)) <= s.procs[p].outstanding
    ensures Elems(Accepted(s.procs[p].client, a)) !! s.confirmed
  {
    hide LInv, Accepted, Enabled;
    AcceptedIsServed(s.procs[p], a);
  }

  lemma LocalAccount(s: System, b: Ledger, p: nat, a: Action)
    requires SInv(s) && DupInv(s) && TabsInv(s, b) && AccountInv(s, b) && May(s, Local(p, a))
    ensures AccountInv(Happen(s, Local(p, a)), Noted(s, b, Local(p, a)))
  {
    hide SInv, DupInv, AccountInv, TabInv, Shape, Exec, LExec, Enabled, Accepted, Returns, Tabbed;
    var c, tab := s.procs[p].client, b.tabs[p];
    LiveTab(s, p, a);
    OwnStep(c, a, tab);
    AcceptsOutstanding(s, p, a);
    if c.mode.Subscriber? {
      WorkerAccepts(s, p, a);
    }
    var accepted := Elems(Accepted(c, a));
    AccountStep(s, b, Happen(s, Local(p, a)), Noted(s, b, Local(p, a)), p, accepted,
                if Returns(c, a) then Elems(tab.own + Accepted(c, a)) else {},
                if a.Raise? then Elems(tab.own) else {},
                if c.mode.Subscriber? then accepted else {});
  }

  lemma OtherAccount(s: System, b: Ledger, e: Event)
    requires SInv(s) && TabsInv(s, b) && AccountInv(s, b) && May(s, e) && !e.Local?
    ensures AccountInv(Happen(s, e), Noted(s, b, e))
  {
    hide SInv, TabInv, AccountInv, LExec, Exec, Enabled, Share, NoDup;
    var own := if e.Leave? || e.Crash? then Elems(b.tabs[e.p].own) else {};
    AccountStep(s, b, Happen(s, e), Noted(s, b, e), e.p, {}, {}, own, {});
  }

  // ---- How often a row is returned ----

  /** The process may still confirm `m`, or its call in progress may still return it. */
  ghost predicate Pends(l: Link, tab: Tab, m: Message) {
    (m in l.outstanding && m !in tab.returned) || m in tab.rows
  }

  /** No return of `m` stands: it can be delivered again, or something else has confirmed it. */
  ghost predicate Unsettled(s: System, b: Ledger, m: Message) {
    m in s.stored || m in b.spoiled || m in b.handled
    || exists p :: p in s.procs && p in b.tabs && Pends(s.procs[p], b.tabs[p], m)
  }

  ghost predicate CountOf(s: System, b: Ledger, m: Message) {
    && multiset(b.returned)[m] <= b.lost[m] + (if Unsettled(s, b, m) then 0 else 1)
    && (m in b.returned ==> m in s.published)
  }

  ghost predicate CountInv(s: System, b: Ledger) {
    forall m :: CountOf(s, b, m)
  }

  /** A step that changes at most one process and returns no row. */
  lemma CountKept(s: System, b: Ledger, k: System, d: Ledger, p: nat, m: Message)
    requires CountOf(s, b, m) && d.returned == b.returned && d.lost[m] >= b.lost[m] && s.published <= k.published
    requires forall q :: q in k.procs && q != p ==> q in s.procs && k.procs[q] == s.procs[q]
    requires forall q :: q in d.tabs && q != p ==> q in b.tabs && d.tabs[q] == b.tabs[q]
    requires (m in k.stored || m in d.spoiled || m in d.handled
              || (p in k.procs && p in d.tabs && Pends(k.procs[p], d.tabs[p], m)))
             ==> Unsettled(s, b, m) || m !in b.returned || d.lost[m] > b.lost[m]
    ensures CountOf(k, d, m)
  {
    hide Pends;
    InCopies(b.returned, m);
  }

  lemma OutsideCount(s: System, b: Ledger, e: Event, m: Message)
    requires e.Spawn? || e.Open? || e.Publish? || e.Push?
    requires SInv(s) && TabsInv(s, b) && CountOf(s, b, m) && May(s, e)
    ensures CountOf(Happen(s, e), Noted(s, b, e), m)
  {
    hide SInv, TabInv, CountOf, Exec, Enabled, Share, NoDup;
    var k, d := Happen(s, e), Noted(s, b, e);
    if e.Publish? {
      Unpublished(s, b, m);
    }
    PendsSame(s, b, e, m);
    CountKept(s, b, k, d, e.p, m);
  }

  lemma Unpublished(s: System, b: Ledger, m: Message)
    requires CountOf(s, b, m)
    ensures m !in s.published ==> m !in b.returned
  {
  }

  lemma PendsSame(s: System, b: Ledger, e: Event, m: Message)
    requires e.Spawn? || e.Open? || e.Publish? || e.Push?
    requires TabsInv(s, b) && May(s, e)
    ensures var k, d := Happen(s, e), Noted(s, b, e);
            e.p in k.procs && e.p in d.tabs && Pends(k.procs[e.p], d.tabs[e.p], m) ==> Unsettled(s, b, m)
  {
    hide TabInv, Exec, Enabled, Share, NoDup;
  }

  /** The places a message can come to pend at in a step of its process. */
  lemma LocalPends(l: Link, a: Action, tab: Tab, m: Message)
    requires Shape(l.client) && Enabled(l.client, a) && !a.Arrive? && TabInv(l.client, tab)
    requires a.Take? ==> l.client.current[0] in l.outstanding && l.client.current[0] !in l.client.served
    ensures Pends(LExec(FLUSH_THRESHOLD, l, a), Tabbed(l.client, a, tab), m) ==> Pends(l, tab, m)
    ensures l.client.mode.Subscriber? && m in l.outstanding ==> Pends(l, tab, m)
    ensures m in tab.own ==> Pends(l, tab, m)
  {
    hide Shape, Exec, Accepted, Hand, Returns;
    if a.Take? && !l.client.mode.Subscriber? && l.client.current[0] in tab.returned {
      ReturnedServed(l.client, tab, l.client.current[0]);
    }
  }

  lemma QuietCount(s: System, b: Ledger, p: nat, a: Action, m: Message)
    requires SInv(s) && TabsInv(s, b) && CountOf(s, b, m) && May(s, Local(p, a))
    requires Returns(s.procs[p].client, a) ==> m !in b.tabs[p].rows
    ensures CountOf(Happen(s, Local(p, a)), Noted(s, b, Local(p, a)), m)
  {
    hide SInv, TabInv, Exec, LExec, Enabled, Accepted, Returns, Tabbed, Shape, Pends;
    var k, d := Happen(s, Local(p, a)), Noted(s, b, Local(p, a));
    LiveTab(s, p, a);
    LocalPends(s.procs[p], a, b.tabs[p], m);
    AcceptsOutstanding(s, p, a);
    InCopies(b.returned, m);
    InCopies(b.tabs[p].rows, m);
  }

  /** A row of a call in progress is with its process alone, and only that call has confirmed it, if anything has. */
  lemma RowAlone(s: System, b: Ledger, p: nat, m: Message)
    requires SInv(s) && TabsInv(s, b) && Apart(s) && AccountInv(s, b)
    requires p in s.procs && m in b.tabs[p].rows
    ensures multiset(b.tabs[p].rows)[m] == 1 && m !in b.tabs[p].returned
    ensures m !in s.stored && m !in b.spoiled && m !in b.handled && m in s.published
    ensures forall q :: q in s.procs && q != p ==> !Pends(s.procs[q], b.tabs[q], m)
  {
    hide LInv, TabInv, AllOwn;
    RowFacts(s, b, p, m);
    DeliveredPlaces(s, p);
    OwnParts(b, p);
    assert m in Elems(s.procs[p].client.delivered);
    forall q | q in s.procs && q != p ensures !Pends(s.procs[q], b.tabs[q], m) {
      PendsDelivered(s, b, q, m);
    }
  }

  lemma RowFacts(s: System, b: Ledger, p: nat, m: Message)
    requires SInv(s) && TabsInv(s, b) && p in s.procs && m in b.tabs[p].rows
    ensures multiset(b.tabs[p].rows)[m] == 1 && m !in b.tabs[p].returned
    ensures m in s.procs[p].client.delivered && (m in s.procs[p].outstanding || m in b.tabs[p].own)
  {
    hide Conserved, LInv;
    var tab := b.tabs[p];
    InCopies(tab.rows, m);
    InCopies(tab.returned, m);
    RowCopies(s.procs[p], tab, m);
  }

  lemma PendsDelivered(s: System, b: Ledger, q: nat, m: Message)
    requires SInv(s) && TabsInv(s, b) && q in s.procs
    ensures Pends(s.procs[q], b.tabs[q], m) ==> m in Elems(s.procs[q].client.delivered)
  {
    hide Conserved, Inv, Share, NoDup;
    if m in b.tabs[q].rows {
      RowFacts(s, b, q, m);
    } else if m in s.procs[q].outstanding {
      assert m in Elems(s.procs[q].client.delivered);
    }
  }

  /** Once returned, a row no longer pends at its process. */
  lemma ReturnedPends(l: Link, a: Action, tab: Tab, m: Message)
    requires Enabled(l.client, a) && Returns(l.client, a) && m in tab.rows
    ensures !Pends(LExec(FLUSH_THRESHOLD, l, a), Tabbed(l.client, a, tab), m)
  {
    hide Exec, Accepted;
  }

  lemma RowPends(l: Link, tab: Tab, m: Message)
    requires m in tab.rows
    ensures Pends(l, tab, m)
  {
  }

  lemma BackendReturns(c: Client, a: Action)
    requires Returns(c, a)
    ensures !c.mode.Subscriber? && !a.Raise?
  {
  }

  lemma CountReturned(s: System, b: Ledger, k: System, d: Ledger, p: nat, rows: seq<Message>, m: Message)
    requires CountOf(s, b, m) && Unsettled(s, b, m) && multiset(rows)[m] == 1
    requires d.returned == b.returned + rows && d.lost == b.lost && m in k.published
    requires m !in k.stored && m !in d.spoiled && m !in d.handled
    requires forall q :: q in k.procs && q in d.tabs ==> !Pends(k.procs[q], d.tabs[q], m)
    ensures CountOf(k, d, m)
  {
    hide Pends;
    assert multiset(d.returned)[m] == multiset(b.returned)[m] + 1;
  }

  lemma ReturnCount(s: System, b: Ledger, p: nat, a: Action, m: Message)
    requires SInv(s) && TabsInv(s, b) && Apart(s) && AccountInv(s, b) && CountOf(s, b, m) && May(s, Local(p, a))
    requires Returns(s.procs[p].client, a) && m in b.tabs[p].rows
    ensures CountOf(Happen(s, Local(p, a)), Noted(s, b, Local(p, a)), m)
  {
    hide SInv, TabInv, Apart, AccountInv, Exec, LExec, Enabled, Accepted, Pends, CountOf, Tabbed, Returns;
    RowAlone(s, b, p, m);
    RowPends(s.procs[p], b.tabs[p], m);
    ReturnedPends(s.procs[p], a, b.tabs[p], m);
    BackendReturns(s.procs[p].client, a);
    CountReturned(s, b, Happen(s, Local(p, a)), Noted(s, b, Local(p, a)), p, b.tabs[p].rows, m);
  }

  lemma EndCount(s: System, b: Ledger, e: Event, m: Message)
    requires e.Leave? || e.Crash?
    requires SInv(s) && TabsInv(s, b) && CountOf(s, b, m) && May(s, e)
    ensures CountOf(Happen(s, e), Noted(s, b, e), m)
  {
    var tab := b.tabs[e.p];
    EndLost(s, b, e.p, m);
    hide SInv, TabInv, CountOf, LInv;
    CountKept(s, b, Happen(s, e), Noted(s, b, e), e.p, m);
  }

  lemma EndLost(s: System, b: Ledger, p: nat, m: Message)
    requires SInv(s) && TabsInv(s, b) && p in s.procs
    ensures m in s.procs[p].outstanding ==>
              Unsettled(s, b, m) || multiset(Elems(b.tabs[p].returned) * Elems(s.procs[p].client.givenUp))[m] > 0
    ensures m in b.tabs[p].own ==> Unsettled(s, b, m)
  {
    hide Conserved, LInv;
    var l, tab := s.procs[p], b.tabs[p];
    assert m in tab.own ==> Pends(l, tab, m);
    if m in l.outstanding {
      if m in tab.returned {
        OwedIsGivenUp(l, tab, m);
      } else {
        assert Pends(l, tab, m);
      }
    }
  }

  // ---- All events ----

  ghost predicate BookInv(s: System, b: Ledger) {
    TabsInv(s, b) && Apart(s) && AccountInv(s, b) && CountInv(s, b)
  }

  lemma NotedInv(s: System, b: Ledger, e: Event)
    requires SInv(s) && DupInv(s) && BookInv(s, b) && May(s, e)
    ensures BookInv(Happen(s, e), Noted(s, b, e))
  {
    hide SInv, DupInv, TabInv, Apart, AccountInv, CountOf, May, Happen, Noted;
    NotedTabs(s, b, e);
    HappenApart(s, e);
    if e.Local? {
      LocalAccount(s, b, e.p, e.a);
    } else {
      OtherAccount(s, b, e);
    }
    forall m ensures CountOf(Happen(s, e), Noted(s, b, e), m) {
      NotedCount(s, b, e, m);
    }
  }

  lemma NotedCount(s: System, b: Ledger, e: Event, m: Message)
    requires SInv(s) && TabsInv(s, b) && Apart(s) && AccountInv(s, b) && CountOf(s, b, m) && May(s, e)
    ensures CountOf(Happen(s, e), Noted(s, b, e), m)
  {
    hide SInv, TabInv, Apart, AccountInv, CountOf, Happen, Noted, Returns;
    match e
    case Local(p, a) =>
      if Returns(s.procs[p].client, a) && m in b.tabs[p].rows {
        ReturnCount(s, b, p, a, m);
      } else {
        QuietCount(s, b, p, a, m);
      }
    case Leave(_) => EndCount(s, b, e, m);
    case Crash(_) => EndCount(s, b, e, m);
    case _ => OutsideCount(s, b, e, m);
  }

  lemma {:induction false} BooksHold(es: seq<Event>)
    requires History(es)
    ensures BookInv(After(es), Book(es))
  {
    if es == [] {
      assert AllOwn(NO_CALLS) == {};
    } else {
      var front := es[..|es| - 1];
      BooksHold(front);
      HistoryInv(front);
      hide SInv, DupInv, BookInv, Happen, May, Noted;
      NotedInv(After(front), Book(front), es[|es| - 1]);
    }
  }

  // ---- The main results, over whole histories ----

  /**
   How often a message is returned. In every history, with any crashes, cancelled calls and failed confirms,
   the calls that returned hold a message at most once more than ended backends have given it up after
   returning it; and not once more if the broker has it again, a worker has confirmed it, or it was
   confirmed by a call that did not return.
   */
  lemma ReturnedCount(es: seq<Event>, m: Message)
    requires History(es)
    ensures var b := Book(es);
            && multiset(b.returned)[m] <= b.lost[m] + 1
            && (m in After(es).stored || m in b.handled || m in b.spoiled ==> multiset(b.returned)[m] <= b.lost[m])
  {
    BooksHold(es);
    assert CountOf(After(es), Book(es), m);
  }

  /** Summed over all messages. */
  lemma DuplicateReturns(es: seq<Event>)
    requires History(es)
    ensures |Book(es).returned| - |Elems(Book(es).returned)| <= |Book(es).lost|
  {
    var b := Book(es);
    forall m ensures multiset(b.returned)[m] <= (multiset(Elems(b.returned)) + b.lost)[m] {
      ReturnedCount(es, m);
      InCopies(b.returned, m);
    }
    hide Book;
    assert multiset(b.returned) <= multiset(Elems(b.returned)) + b.lost;
    SubmultisetSize(multiset(b.returned), multiset(Elems(b.returned)) + b.lost);
    assert |multiset(b.returned)| == |b.returned|;
  }

  lemma SubmultisetSize<T>(a: multiset<T>, b: multiset<T>)
    requires a <= b
    ensures |a| <= |b|
  {
    assert b == a + (b - a);
  }

  predicate ConfirmFails(a: Action) {
    a == Flush(false) || a == Retry(false) || a == Confirm(false)
  }

  /** No confirm call of a backend fails. */
  ghost predicate ConfirmGood(s: System, e: Event)
    requires May(s, e)
  {
    e.Local? && !s.procs[e.p].client.mode.Subscriber? ==> !ConfirmFails(e.a)
  }

  ghost predicate ConfirmsGood(es: seq<Event>)
    requires History(es)
  {
    es == [] || (ConfirmsGood(es[..|es| - 1]) && ConfirmGood(After(es[..|es| - 1]), es[|es| - 1]))
  }

  /** A backend whose confirm calls succeed gives up only what a raised call leaves behind. */
  ghost predicate GaveUpDropped(c: Client, tab: Tab) {
    !c.mode.Subscriber? ==> forall m :: m in c.givenUp ==> m in tab.dropped
  }

  lemma LocalGood(c: Client, a: Action, tab: Tab)
    requires TabInv(c, tab) && Shape(c) && Enabled(c, a) && GaveUpDropped(c, tab)
    requires !c.mode.Subscriber? ==> !ConfirmFails(a)
    ensures GaveUpDropped(Exec(FLUSH_THRESHOLD, c, a), Tabbed(c, a, tab))
  {
    hide Accepted;
  }

  ghost predicate NothingLost(s: System, b: Ledger) {
    && SameProcs(s, b) && b.lost == multiset{}
    && forall p :: p in s.procs ==> GaveUpDropped(s.procs[p].client, b.tabs[p])
  }

  lemma OneGood(s: System, b: Ledger, k: System, d: Ledger, p: nat)
    requires NothingLost(s, b) && SameProcs(k, d) && d.lost == multiset{}
    requires forall q :: q in k.procs && q != p ==> q in s.procs && k.procs[q] == s.procs[q] && d.tabs[q] == b.tabs[q]
    requires p in k.procs ==> GaveUpDropped(k.procs[p].client, d.tabs[p])
    ensures NothingLost(k, d)
  {
    hide GaveUpDropped;
  }

  lemma GoodNoted(s: System, b: Ledger, e: Event)
    requires SInv(s) && TabsInv(s, b) && NothingLost(s, b) && May(s, e) && ConfirmGood(s, e)
    ensures NothingLost(Happen(s, e), Noted(s, b, e))
  {
    if e.Local? {
      GoodLocal(s, b, e.p, e.a);
    } else if e.Leave? || e.Crash? {
      GoodEnd(s, b, e);
    } else {
      GoodOutside(s, b, e);
    }
  }

  lemma GoodOutside(s: System, b: Ledger, e: Event)
    requires e.Spawn? || e.Open? || e.Publish? || e.Push?
    requires SameProcs(s, b) && NothingLost(s, b) && May(s, e)
    ensures NothingLost(Happen(s, e), Noted(s, b, e))
  {
    NotedProcs(s, b, e);
    hide LExec, Exec, Enabled, GaveUpDropped, Share, NoDup, NothingLost;
    GoodParts(s, b, e.p);
    if e.Push? {
      PushGood(s.procs[e.p], e.event, b.tabs[e.p]);
    } else if e.Spawn? {
      NewGood(if e.worker then NEW_WORKER else NEW_BACKEND);
    }
    OneGood(s, b, Happen(s, e), Noted(s, b, e), e.p);
  }

  lemma GoodParts(s: System, b: Ledger, p: nat)
    requires NothingLost(s, b)
    ensures SameProcs(s, b) && b.lost == multiset{}
    ensures p in s.procs ==> GaveUpDropped(s.procs[p].client, b.tabs[p])
  {
  }

  lemma GoodEnd(s: System, b: Ledger, e: Event)
    requires e.Leave? || e.Crash?
    requires SInv(s) && TabsInv(s, b) && NothingLost(s, b) && May(s, e)
    ensures NothingLost(Happen(s, e), Noted(s, b, e))
  {
    NotedProcs(s, b, e);
    hide SInv, TabInv, GaveUpDropped, NothingLost;
    GoodParts(s, b, e.p);
    EndGood(s, b, e.p);
    OneGood(s, b, Happen(s, e), Noted(s, b, e), e.p);
  }

  lemma GoodLocal(s: System, b: Ledger, p: nat, a: Action)
    requires SInv(s) && TabsInv(s, b) && NothingLost(s, b) && May(s, Local(p, a)) && ConfirmGood(s, Local(p, a))
    ensures NothingLost(Happen(s, Local(p, a)), Noted(s, b, Local(p, a)))
  {
    hide SInv, TabsInv, SameProcs, Exec, LExec, Enabled, Accepted, Tabbed, Returns, GaveUpDropped, NothingLost, ConfirmGood;
    GoodParts(s, b, p);
    NotedProcs(s, b, Local(p, a));
    LocalGoodAt(s, b, p, a);
    TabKept(s, b, p, a);
    OneGood(s, b, Happen(s, Local(p, a)), Noted(s, b, Local(p, a)), p);
  }

  lemma TabKept(s: System, b: Ledger, p: nat, a: Action)
    requires SameProcs(s, b) && May(s, Local(p, a))
    ensures var k, d := Happen(s, Local(p, a)), Noted(s, b, Local(p, a));
            && k.procs == s.procs[p := LExec(FLUSH_THRESHOLD, s.procs[p], a)] && d.lost == b.lost
            && d.tabs == b.tabs[p := Tabbed(s.procs[p].client, a, b.tabs[p])]
            && (forall q :: q in s.procs ==> q in b.tabs)
  {
    hide LExec, Enabled, Accepted, Tabbed, Returns;
  }

  lemma LocalGoodAt(s: System, b: Ledger, p: nat, a: Action)
    requires SInv(s) && TabsInv(s, b) && NothingLost(s, b) && May(s, Local(p, a)) && ConfirmGood(s, Local(p, a))
    ensures GaveUpDropped(LExec(FLUSH_THRESHOLD, s.procs[p], a).client, Tabbed(s.procs[p].client, a, b.tabs[p]))
  {
    hide SInv, TabInv, Exec, Enabled, Tabbed, Shape, GaveUpDropped, ConfirmFails;
    LiveTab(s, p, a);
    LocalGood(s.procs[p].client, a, b.tabs[p]);
  }

  lemma PushGood(l: Link, event: seq<Message>, tab: Tab)
    requires GaveUpDropped(l.client, tab)
    ensures GaveUpDropped(LExec(FLUSH_THRESHOLD, l, Arrive(event)).client, tab)
  {
  }

  lemma NewGood(start: Client)
    requires start in {NEW_BACKEND, NEW_WORKER}
    ensures GaveUpDropped(start, NO_TAB)
  {
  }

  lemma EndGood(s: System, b: Ledger, p: nat)
    requires SInv(s) && TabsInv(s, b) && p in s.procs && GaveUpDropped(s.procs[p].client, b.tabs[p])
    ensures Elems(b.tabs[p].returned) * Elems(s.procs[p].client.givenUp) == {}
  {
    hide Conserved, LInv, TabInv;
    var l, tab := s.procs[p], b.tabs[p];
    forall m | m in tab.returned ensures m !in l.client.givenUp {
      ReturnedServed(l.client, tab, m);
      RowCopies(l, tab, m);
      InCopies(tab.returned, m);
      InCopies(tab.dropped, m);
    }
  }

  lemma {:induction false} GoodLosesNothing(es: seq<Event>)
    requires History(es) && ConfirmsGood(es)
    ensures NothingLost(After(es), Book(es))
  {
    if es != [] {
      var front := es[..|es| - 1];
      GoodLosesNothing(front);
      BooksHold(front);
      HistoryInv(front);
      hide SInv, DupInv, TabsInv, Apart, AccountInv, CountInv, NothingLost, Happen, May, Noted, ConfirmGood;
      GoodNoted(After(front), Book(front), es[|es| - 1]);
    }
  }

  /**
   While confirm calls succeed, no message is returned twice, whichever backends pull it, however many
   of them are killed in the middle of a call, and however many calls raise.
   */
  lemma ReturnedOnce(es: seq<Event>)
    requires History(es) && ConfirmsGood(es)
    ensures NoDup(Book(es).returned)
  {
    GoodLosesNothing(es);
    forall m ensures multiset(Book(es).returned)[m] <= 1 {
      ReturnedCount(es, m);
    }
  }

  /**
   Where confirms come from. Each confirmed message was confirmed by a call that returned and gave it
   back, by a call that raised or was killed and gave nothing back, by a worker after its callback, or by
   a call still in progress that has it among its rows; and by one of these only.
   */
  lemma ConfirmsAccount(es: seq<Event>)
    requires History(es)
    ensures var s, b := After(es), Book(es);
            && s.confirmed == b.kept + b.spoiled + b.handled + AllOwn(b)
            && b.kept !! b.spoiled && b.kept !! b.handled && b.spoiled !! b.handled
            && AllOwn(b) !! b.kept + b.spoiled + b.handled
            && b.kept <= Elems(b.returned) && b.handled <= Elems(s.effects)
            && (forall p, q :: p in b.tabs && q in b.tabs && p != q ==> Elems(b.tabs[p].own) !! Elems(b.tabs[q].own))
            && (forall p :: p in b.tabs ==> Elems(b.tabs[p].own) <= Elems(b.tabs[p].rows))
  {
    BooksHold(es);
    hide Book, After, Apart, CountInv;
    OwnApart(After(es), Book(es));
    forall p | p in Book(es).tabs ensures Elems(Book(es).tabs[p].own) <= Elems(Book(es).tabs[p].rows) {
      assert TabInv(After(es).procs[p].client, Book(es).tabs[p]);
    }
  }

  lemma OwnApart(s: System, b: Ledger)
    requires AccountInv(s, b)
    ensures AllOwn(b) !! b.kept + b.spoiled + b.handled
  {
    forall m | m in AllOwn(b) ensures m !in b.kept + b.spoiled + b.handled {
      var p :| p in b.tabs && m in b.tabs[p].own;
      assert m in Elems(b.tabs[p].own);
    }
  }

  /** A call is killed or raises after a confirm of its own. */
  ghost predicate Spoils(s: System, b: Ledger, e: Event)
    requires May(s, e) && SameProcs(s, b)
  {
    (e.Crash? || (e.Local? && e.a.Raise?)) && b.tabs[e.p].own != []
  }

  ghost predicate NoneSpoils(es: seq<Event>)
    requires History(es)
  {
    es == [] || (NoneSpoils(es[..|es| - 1]) && !Spoils(After(es[..|es| - 1]), Book(es[..|es| - 1]), es[|es| - 1]))
  }

  /**
   Exactly when pulls deliver all they confirm: every confirmed message was given back by the call
   that confirmed it, or is still among the rows of a live call, or had its callback committed, if and
   only if no call was killed or raised after a confirm of its own.
   */
  lemma {:induction false} AllGivenBackIff(es: seq<Event>)
    requires History(es)
    ensures Book(es).spoiled == {} <==> NoneSpoils(es)
    ensures (After(es).confirmed == Book(es).kept + Book(es).handled + AllOwn(Book(es))) <==> NoneSpoils(es)
  {
    SpoiledIff(es);
    ConfirmsAccount(es);
    var s, b := After(es), Book(es);
    hide History, After, Book, NoneSpoils, AllOwn;
    if s.confirmed == b.kept + b.handled + AllOwn(b) {
      assert b.spoiled <= s.confirmed;
      assert b.spoiled == {};
    }
  }

  lemma {:induction false} SpoiledIff(es: seq<Event>)
    requires History(es)
    ensures Book(es).spoiled == {} <==> NoneSpoils(es)
  {
    if es != [] {
      var front, e := es[..|es| - 1], es[|es| - 1];
      SpoiledIff(front);
      BooksHold(front);
      HistoryInv(front);
      hide SInv, Apart, AccountInv, CountInv, Happen;
      SpoiledStep(After(front), Book(front), e);
    }
  }

  lemma SpoiledStep(s: System, b: Ledger, e: Event)
    requires SInv(s) && TabsInv(s, b) && May(s, e)
    ensures Noted(s, b, e).spoiled == {} <==> b.spoiled == {} && !Spoils(s, b, e)
  {
    hide SInv, TabInv, LExec, Exec, Enabled, Accepted, Share, NoDup, Tabbed, Returns;
    if e.Leave? {
      LeftOwn(s, b, e.p);
    }
    if e.p in b.tabs {
      NoElems(b.tabs[e.p].own);
    }
  }

  lemma LeftOwn(s: System, b: Ledger, p: nat)
    requires SInv(s) && TabsInv(s, b) && May(s, Leave(p))
    ensures b.tabs[p].own == []
  {
    hide Conserved, Share, NoDup;
    assert TabInv(s.procs[p].client, b.tabs[p]);
  }

  lemma NoElems(own: seq<Message>)
    ensures Elems(own) == {} <==> own == []
  {
    if own != [] {
      assert own[0] in Elems(own);
    }
  }
}

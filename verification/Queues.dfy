/** Which queues' messages a process can still be delivered, and which of them its calls can return. */
module Queues {
  import opened Messages
  import opened ClientMachine
  import opened Flow

  // ---- A call that takes everything there is ----

  /** Nothing is queued, nothing is unconfirmed but what is lost. */
  ghost predicate Emptied(l: Link, k: Link) {
    && k.client.pc.Idle? && k.client.arrived == [] && k.handles == l.handles
    && k.client.delivered == l.client.delivered
    && k.outstanding == Lost(l.client)
    && multiset(k.client.served) == multiset(l.client.served) + multiset(Flat(l.client.arrived))
  }

  /** The end of a pull that has read all there was. */
  lemma EndPull(t: nat, c: Client) returns (d: Client, e: Client)
    requires Ready(c)
    ensures Enabled(c, End) && d == Exec(t, c, End)
    ensures d.pc.LastFlush? ==> Enabled(d, Flush(true)) && e == Exec(t, d, Flush(true))
    ensures !d.pc.LastFlush? ==> e == d
    ensures e.pc.Idle? && e.arrived == [] && e.delivered == c.delivered && e.served == c.served
    ensures e.passed == c.passed && e.givenUp == c.givenUp
  {
    d := Exec(t, c, End);
    e := if d.pc.LastFlush? then Exec(t, d, Flush(true)) else d;
    assert c.passed + [] == c.passed;
  }

  /** A run of whole calls in which nothing fails: they return all they have served. */
  ghost predicate Complete(w: nat, t: nat, l: Link, acts: seq<Action>) {
    LValid(w, t, l, acts) && (forall a :: a in acts ==> Faultless(a)) && LRun(w, t, l, acts).client.pc.Idle?
  }

  lemma PullFaultless(acts: seq<Action>)
    requires BatchedPull(acts)
    ensures forall a :: a in acts ==> Faultless(a)
  {
    assert forall i :: 0 <= i < |acts| ==> Faultless(acts[i]);
  }

  /** One batched call with nothing failing, long enough for all that is queued. */
  lemma EmptyQueue(w: nat, t: nat, l: Link) returns (acts: seq<Action>)
    requires t >= 2 && LInv(w, t, l) && l.client.pc.Idle?
    ensures Complete(w, t, l, acts) && Emptied(l, LRun(w, t, l, acts)) && forall a :: a in acts ==> !a.Arrive?
  {
    hide Inv, LInv, LRun, LValid, BatchedPull, Exec, Enabled, Lost, Flat;
    acts := LBegin(w, t, l, |Flat(l.client.arrived)| + 1);
    acts := Drain(w, t, l, acts, 1);
    PullFaultless(acts);
    PullLosesNothing(w, t, l, acts);
    var k := LRun(w, t, l, acts);
    LRunClient(w, t, l, acts);
    var d, e := EndPull(t, k.client);
    LStep(w, t, l, acts, End);
    acts := acts + [End];
    if d.pc.LastFlush? {
      LStep(w, t, l, acts, Flush(true));
      acts := acts + [Flush(true)];
    }
    LRunInv(w, t, l, acts);
    LRunClient(w, t, l, acts);
    IdleParts(w, t, l, LRun(w, t, l, acts));
  }

  lemma IdleParts(w: nat, t: nat, l: Link, k: Link)
    requires LInv(w, t, l) && LInv(w, t, k) && l.client.pc.Idle? && k.client.pc.Idle? && k.client.arrived == []
    requires k.client.delivered == l.client.delivered && k.client.passed == l.client.passed
    requires k.client.givenUp == l.client.givenUp
    ensures k.outstanding == Lost(l.client)
    ensures multiset(k.client.served) == multiset(l.client.served) + multiset(Flat(l.client.arrived))
  {
    OutstandingParts(w, t, k);
    IdleDelivered(t, l.client);
    IdleDelivered(t, k.client);
    assert Flat(k.client.arrived) == [];
    hide Inv, LInv;
    Cancel(multiset(l.client.delivered), multiset(l.client.passed), multiset(k.client.served),
           multiset(l.client.served), multiset(Flat(l.client.arrived)));
  }

  lemma Cancel<T>(all: multiset<T>, passed: multiset<T>, x: multiset<T>, y: multiset<T>, z: multiset<T>)
    requires all == x + passed + multiset{} && all == y + passed + z
    ensures x == y + z
  {
    forall e ensures x[e] == (y + z)[e] {
      assert (x + passed + multiset{})[e] == (y + passed + z)[e];
    }
  }

  lemma IdleDelivered(t: nat, c: Client)
    requires Inv(t, c) && c.pc.Idle?
    ensures multiset(c.delivered) == multiset(c.served) + multiset(c.passed) + multiset(Flat(c.arrived))
    ensures c.held == [] && c.current == [] && Hand(c.pc) == [] && Callback(c.pc) == []
  {
    hide Flat;
  }

  // ---- Whether a queue still delivers ----

  /** With a slot left for its queue, any new message can be delivered, at the latest after one more call. */
  lemma DeliverOne(w: nat, t: nat, l: Link, m: Message) returns (acts: seq<Action>)
    requires t >= 2 && LInv(w, t, l) && l.client.pc.Idle?
    requires m.uri in l.handles && m !in l.client.delivered && |Share(Lost(l.client), m.uri)| < w
    ensures Complete(w, t, l, acts) && forall a :: a in acts && a.Arrive? ==> a.event == [m]
    ensures var k := LRun(w, t, l, acts).client; k.arrived == [[m]] && m in k.delivered
  {
    hide Inv, LInv, LRun, LValid, Lost;
    acts := EmptyQueue(w, t, l);
    var k := LRun(w, t, l, acts);
    FeedAllowed(w, k, k, m.uri, [], m);
    LStep(w, t, l, acts, Arrive([m]));
    acts := acts + [Arrive([m])];
  }

  function NewMessage(c: Client, u: Uri): (m: Message)
    ensures m.uri == u && m !in c.delivered
  {
    Message(GuidBound(c.delivered), u, [])
  }

  // ---- Which queues' messages calls return ----

  /** Everything queued is of `u`, and no other open queue has a slot left. */
  ghost predicate OnlyQueue(w: nat, l: Link, u: Uri) {
    && (forall m :: m in Flat(l.client.arrived) ==> m.uri == u)
    && (forall v :: v in l.handles ==> v == u || |Share(Lost(l.client), v)| >= w)
  }

  lemma {:induction false} NewFromHandles(w: nat, t: nat, l: Link, acts: seq<Action>, m: Message)
    requires t >= 2 && LInv(w, t, l) && LValid(w, t, l, acts)
    requires m in LRun(w, t, l, acts).client.delivered && m !in l.client.delivered
    ensures m.uri in l.handles
  {
    var front, a := acts[..|acts| - 1], acts[|acts| - 1];
    var k := LRun(w, t, l, front);
    LRunInv(w, t, l, front);
    LRunClient(w, t, l, front);
    assert LEnabled(w, k, a) && LRun(w, t, l, acts) == LExec(t, k, a);
    if m in k.client.delivered {
      NewFromHandles(w, t, l, front, m);
    } else {
      DeliveredStep(t, k.client, a);
    }
  }

  lemma DeliveredStep(t: nat, c: Client, a: Action)
    requires Enabled(c, a)
    ensures Exec(t, c, a).delivered == c.delivered + (if a.Arrive? then a.event else [])
  {
  }

  lemma {:induction false} PassedKept(t: nat, c: Client, acts: seq<Action>)
    requires Valid(t, c, acts)
    ensures c.passed <= Run(t, c, acts).passed
  {
    if acts != [] {
      PassedKept(t, c, acts[..|acts| - 1]);
      PassedStep(t, Run(t, c, acts[..|acts| - 1]), acts[|acts| - 1]);
    }
  }

  lemma PassedStep(t: nat, c: Client, a: Action)
    requires Enabled(c, a)
    ensures c.passed <= Exec(t, c, a).passed
  {
  }

  /** What was passed over is never served. */
  lemma PassedNotServed(t: nat, c: Client, m: Message)
    requires Inv(t, c) && NoDup(c.delivered) && m in c.passed
    ensures m !in c.served
  {
    Copies(c, m);
    assert multiset(c.delivered)[m] <= 1;
    hide *;
    InCopies(c.passed, m);
    InCopies(c.served, m);
  }

  /** A newly served message was queued at the start or delivered since. */
  lemma ServedWasQueued(t: nat, c0: Client, c: Client, m: Message)
    requires Inv(t, c0) && c0.pc.Idle? && Inv(t, c) && NoDup(c.delivered) && c0.passed <= c.passed
    requires m in c.served && m !in c0.served
    ensures m in Flat(c0.arrived) || (m !in c0.delivered && m in c.delivered)
  {
    hide Inv, Flat;
    if m in c0.passed {
      PassedNotServed(t, c, m);
    }
    ConfirmedDelivered(t, c);
    assert m in Elems(c.served);
    IdleDelivered(t, c0);
    InCopies(c0.delivered, m);
    InCopies(c0.served, m);
    InCopies(c0.passed, m);
    InCopies(Flat(c0.arrived), m);
  }

  lemma LinkParts(w: nat, t: nat, l: Link)
    requires LInv(w, t, l)
    ensures Inv(t, l.client) && NoDup(l.client.delivered)
  {
  }

  lemma OnlyQueueServed(w: nat, t: nat, l: Link, u: Uri, acts: seq<Action>, m: Message)
    requires t >= 2 && LInv(w, t, l) && l.client.pc.Idle? && OnlyQueue(w, l, u) && LValid(w, t, l, acts)
    requires m in LRun(w, t, l, acts).client.served && m !in l.client.served
    ensures m.uri == u
  {
    hide Inv, LInv, LRun, LValid, Flat, Lost;
    LRunInv(w, t, l, acts);
    LRunClient(w, t, l, acts);
    PassedKept(t, l.client, acts);
    LinkParts(w, t, l);
    LinkParts(w, t, LRun(w, t, l, acts));
    ServedWasQueued(t, l.client, LRun(w, t, l, acts).client, m);
    if m !in Flat(l.client.arrived) {
      NewFromHandles(w, t, l, acts, m);
      if m.uri != u {
        StarvedForGood(w, t, l, m.uri, acts);
        assert false;
      }
    }
  }

  /** A call that returns the one message that is waiting. */
  lemma ServeOne(t: nat, c: Client, m: Message) returns (d: Client, e: Client, f: Client, g: Client, h: Client)
    requires c.pc.Idle? && c.arrived == [[m]] && c.current == [] && c.held == []
    ensures Enabled(c, Begin(Immediate, 1)) && d == Exec(t, c, Begin(Immediate, 1))
    ensures Enabled(d, Read) && e == Exec(t, d, Read)
    ensures Enabled(e, Take) && f == Exec(t, e, Take)
    ensures Enabled(f, Confirm(true)) && g == Exec(t, f, Confirm(true))
    ensures Enabled(g, End) && h == Exec(t, g, End) && m in h.served && h.pc.Idle?
  {
    d := Exec(t, c, Begin(Immediate, 1));
    e := Exec(t, d, Read);
    assert e.current == [m];
    f := Exec(t, e, Take);
    g := Exec(t, f, Confirm(true));
    h := Exec(t, g, End);
  }

  lemma CompleteOn(w: nat, t: nat, l: Link, acts: seq<Action>, a: Action)
    requires LValid(w, t, l, acts) && (forall x :: x in acts ==> Faultless(x))
    requires Enabled(LRun(w, t, l, acts).client, a) && !a.Arrive? && Faultless(a)
    ensures LValid(w, t, l, acts + [a]) && (forall x :: x in acts + [a] ==> Faultless(x))
    ensures LRun(w, t, l, acts + [a]).client == Exec(t, LRun(w, t, l, acts).client, a)
  {
    hide LValid, LRun, Enabled, Faultless;
    LStep(w, t, l, acts, a);
  }

  /** The run that returns it. */
  lemma ServeNew(w: nat, t: nat, l: Link, m: Message) returns (acts: seq<Action>)
    requires t >= 2 && LInv(w, t, l) && l.client.pc.Idle?
    requires m.uri in l.handles && m !in l.client.delivered && |Share(Lost(l.client), m.uri)| < w
    ensures Complete(w, t, l, acts) && forall a :: a in acts && a.Arrive? ==> a.event == [m]
    ensures m in LRun(w, t, l, acts).client.served && m !in l.client.served
  {
    hide Inv, LInv, LRun, LValid, Lost, Exec, Enabled;
    acts := DeliverOne(w, t, l, m);
    NotServed(w, t, l, m);
    LRunInv(w, t, l, acts);
    NothingCurrent(w, t, LRun(w, t, l, acts));
    var d, e, f, g, h := ServeOne(t, LRun(w, t, l, acts).client, m);
    CompleteOn(w, t, l, acts, Begin(Immediate, 1));
    acts := acts + [Begin(Immediate, 1)];
    CompleteOn(w, t, l, acts, Read);
    acts := acts + [Read];
    CompleteOn(w, t, l, acts, Take);
    acts := acts + [Take];
    CompleteOn(w, t, l, acts, Confirm(true));
    acts := acts + [Confirm(true)];
    CompleteOn(w, t, l, acts, End);
    acts := acts + [End];
  }

  lemma NotServed(w: nat, t: nat, l: Link, m: Message)
    requires LInv(w, t, l) && m !in l.client.delivered
    ensures m !in l.client.served
  {
    ConfirmedDelivered(t, l.client);
    assert m !in Elems(l.client.delivered);
  }

  lemma NothingCurrent(w: nat, t: nat, l: Link)
    requires LInv(w, t, l) && l.client.pc.Idle?
    ensures l.client.current == [] && l.client.held == []
  {
  }

  lemma QueuedServed(w: nat, t: nat, l: Link, m: Message) returns (acts: seq<Action>)
    requires t >= 2 && LInv(w, t, l) && l.client.pc.Idle? && m in Flat(l.client.arrived)
    ensures Complete(w, t, l, acts) && (forall a :: a in acts ==> !a.Arrive?)
    ensures m in LRun(w, t, l, acts).client.served && m !in l.client.served
  {
    hide Inv, LRun, LValid, Flat, Lost;
    acts := EmptyQueue(w, t, l);
    IdleDelivered(t, l.client);
    assert multiset(l.client.delivered)[m] <= 1;
    InCopies(l.client.served, m);
    InCopies(Flat(l.client.arrived), m);
    InCopies(LRun(w, t, l, acts).client.served, m);
  }

  /** A run that takes a message of another queue. */
  ghost predicate TakesOther(w: nat, t: nat, l: Link, u: Uri, acts: seq<Action>) {
    LValid(w, t, l, acts) && exists m :: m in LRun(w, t, l, acts).client.served && m !in l.client.served && m.uri != u
  }

  /**
   nextEvent belongs to the session, so a call for queue `u` may return messages of any other queue its
   process has open. Between two calls, and while the process opens no other queue: no later call takes
   another queue's message, whatever happens, exactly if everything already queued is of `u` and no other
   open queue can deliver. Where one can, there are calls in which nothing fails that return such a message.
   */
  lemma OwnQueueIff(w: nat, t: nat, l: Link, u: Uri)
    requires t >= 2 && LInv(w, t, l) && l.client.pc.Idle?
    ensures (forall acts :: !TakesOther(w, t, l, u, acts)) <==> OnlyQueue(w, l, u)
    ensures !OnlyQueue(w, l, u) ==> exists acts :: Complete(w, t, l, acts) && TakesOther(w, t, l, u, acts)
  {
    hide Inv, LInv, LValid, LRun, Flat, Lost;
    if OnlyQueue(w, l, u) {
      forall acts ensures !TakesOther(w, t, l, u, acts) {
        if TakesOther(w, t, l, u, acts) {
          var m :| m in LRun(w, t, l, acts).client.served && m !in l.client.served && m.uri != u;
          OnlyQueueServed(w, t, l, u, acts, m);
          assert false;
        }
      }
    } else if m :| m in Flat(l.client.arrived) && m.uri != u {
      var acts := QueuedServed(w, t, l, m);
      assert TakesOther(w, t, l, u, acts);
    } else {
      var v :| v in l.handles && v != u && |Share(Lost(l.client), v)| < w;
      var acts := ServeNew(w, t, l, NewMessage(l.client, v));
      assert TakesOther(w, t, l, u, acts);
    }
  }

  /** With nothing queued and a slot left everywhere it comes down to the queues the process has open. */
  lemma OwnQueueIffAlone(w: nat, t: nat, l: Link, u: Uri)
    requires t >= 2 && LInv(w, t, l) && l.client.pc.Idle? && l.client.arrived == []
    requires forall v :: v in l.handles ==> |Share(Lost(l.client), v)| < w
    ensures (forall acts :: !TakesOther(w, t, l, u, acts)) <==> l.handles <= {u}
  {
    OwnQueueIff(w, t, l, u);
    hide Inv, LInv, Lost, LValid, LRun;
    assert OnlyQueue(w, l, u) <==> l.handles <= {u};
  }

  // ---- Starved queues ----

  /** A run that delivers a new message of the queue. */
  ghost predicate Delivers(w: nat, t: nat, l: Link, u: Uri, acts: seq<Action>) {
    LValid(w, t, l, acts) && exists m :: m in LRun(w, t, l, acts).client.delivered && m !in l.client.delivered && m.uri == u
  }

  /**
   An open queue is starved exactly if the messages passed over and given up fill its window: then no
   run ever delivers a new message of it, and otherwise there is one in which nothing fails.
   */
  lemma StarvedIff(w: nat, t: nat, l: Link, u: Uri)
    requires t >= 2 && LInv(w, t, l) && l.client.pc.Idle?
    ensures (forall acts :: !Delivers(w, t, l, u, acts)) <==> u !in l.handles || |Share(Lost(l.client), u)| >= w
    ensures u in l.handles && |Share(Lost(l.client), u)| < w ==>
              exists acts :: Complete(w, t, l, acts) && Delivers(w, t, l, u, acts)
  {
    hide Inv, LInv, LValid, LRun, Lost;
    if u in l.handles && |Share(Lost(l.client), u)| < w {
      var acts := DeliverOne(w, t, l, NewMessage(l.client, u));
      assert Delivers(w, t, l, u, acts);
    } else {
      forall acts ensures !Delivers(w, t, l, u, acts) {
        if Delivers(w, t, l, u, acts) {
          var m :| m in LRun(w, t, l, acts).client.delivered && m !in l.client.delivered && m.uri == u;
          NewFromHandles(w, t, l, acts, m);
          if |Share(Lost(l.client), u)| >= w {
            StarvedForGood(w, t, l, u, acts);
          }
          assert false;
        }
      }
    }
  }
}

/**
 A client process together with the broker's record of what it has not confirmed.

 The broker's flow control is the only rule taken from outside the client: a handle is pushed
 messages only while the pushes keep its unconfirmed messages within its window.
 */
module Flow {
  import opened Messages
  import opened ClientMachine

  datatype Link = Link(
    client: Client,
    handles: set<Uri>,          // queues the process has open
    outstanding: set<Message>   // broker side: pushed to this process and not confirmed
  )

  /** bmqt::QueueOptions::k_DEFAULT_MAX_UNCONFIRMED_MESSAGES. */
  const WINDOW: nat := 1000

  /** The broker may push `event` (to one or several handles of the process). */
  ghost predicate PushAllowed(w: nat, l: Link, event: seq<Message>) {
    && event != [] && NoDup(event)
    && forall m :: m in event ==>
         && m.uri in l.handles
         && m !in l.client.delivered
         && |Share(l.outstanding + Elems(event), m.uri)| <= w
  }

  ghost predicate LEnabled(w: nat, l: Link, a: Action) {
    Enabled(l.client, a) && (a.Arrive? ==> PushAllowed(w, l, a.event))
  }

  ghost function LExec(t: nat, l: Link, a: Action): Link
    requires Enabled(l.client, a)
  {
    l.(client := Exec(t, l.client, a),
       outstanding := if a.Arrive? then l.outstanding + Elems(a.event)
                      else l.outstanding - Elems(Accepted(l.client, a)))
  }

  ghost predicate LValid(w: nat, t: nat, l: Link, acts: seq<Action>)
    decreases |acts|, 0
  {
    acts == [] ||
    (LValid(w, t, l, acts[..|acts| - 1]) && LEnabled(w, LRun(w, t, l, acts[..|acts| - 1]), acts[|acts| - 1]))
  }

  ghost function LRun(w: nat, t: nat, l: Link, acts: seq<Action>): Link
    requires LValid(w, t, l, acts)
    decreases |acts|, 1
  {
    if acts == [] then l
    else LExec(t, LRun(w, t, l, acts[..|acts| - 1]), acts[|acts| - 1])
  }

  /** Messages whose window slot this process will never give back. */
  function Lost(c: Client): set<Message> {
    Elems(c.passed) + Elems(c.givenUp)
  }

  /** The broker's record and the client's history agree. */
  ghost predicate LInv(w: nat, t: nat, l: Link) {
    && Inv(t, l.client)
    && NoDup(l.client.delivered)
    && l.outstanding == Elems(l.client.delivered) - Elems(l.client.confirmed)
    && (forall m :: m in l.outstanding ==> m.uri in l.handles)
    && (forall u :: |Share(l.outstanding, u)| <= w)
  }

  function Fresh(start: Client, handles: set<Uri>): Link {
    Link(start, handles, {})
  }

  lemma FreshInv(w: nat, t: nat, start: Client, handles: set<Uri>)
    requires t >= 2 && start in {NEW_BACKEND, NEW_WORKER}
    ensures LInv(w, t, Fresh(start, handles))
  {
    forall u ensures |Share({}, u)| <= w {
      assert Share({}, u) == {};
    }
  }

  /** What the client appends to its confirm history is what the broker accepts. */
  lemma AcceptedIsConfirmed(t: nat, c: Client, a: Action)
    requires Shape(c) && Enabled(c, a)
    ensures Exec(t, c, a).confirmed == c.confirmed + Accepted(c, a)
    ensures a.Arrive? ==> Exec(t, c, a).delivered == c.delivered + a.event
    ensures !a.Arrive? ==> Exec(t, c, a).delivered == c.delivered
  {
  }

  lemma PushInv(w: nat, t: nat, l: Link, e: seq<Message>)
    requires t >= 2 && LInv(w, t, l) && PushAllowed(w, l, e)
    ensures LInv(w, t, LExec(t, l, Arrive(e)))
  {
    hide Inv, Exec, Accepted;
    var c, k := l.client, LExec(t, l, Arrive(e));
    ConfirmedDelivered(t, c);
    ArriveStep(t, c, e);
    forall m ensures multiset(k.client.delivered)[m] <= 1 {
      InCopies(c.delivered, m);
      InCopies(e, m);
      assert multiset(c.delivered)[m] <= 1 && multiset(e)[m] <= 1;
    }
    forall m | m in e ensures m !in Elems(c.confirmed) {
      assert m !in Elems(c.delivered);
    }
    assert k.outstanding == Elems(c.delivered + e) - Elems(c.confirmed);
    forall u ensures |Share(k.outstanding, u)| <= w {
      if m :| m in e && m.uri == u {
      } else {
        assert Share(k.outstanding, u) == Share(l.outstanding, u);
      }
    }
  }

  lemma ArriveStep(t: nat, c: Client, e: seq<Message>)
    requires t >= 2 && Inv(t, c)
    ensures var d := Exec(t, c, Arrive(e));
            Inv(t, d) && d.delivered == c.delivered + e && d.confirmed == c.confirmed
  {
    StepInv(t, c, Arrive(e));
  }

  lemma ConfirmStep(t: nat, c: Client, a: Action)
    requires t >= 2 && Inv(t, c) && Enabled(c, a) && !a.Arrive?
    ensures var d := Exec(t, c, a);
            Inv(t, d) && d.delivered == c.delivered && d.confirmed == c.confirmed + Accepted(c, a)
  {
    StepInv(t, c, a);
    AcceptedIsConfirmed(t, c, a);
  }

  lemma ConfirmInv(w: nat, t: nat, l: Link, a: Action)
    requires t >= 2 && LInv(w, t, l) && Enabled(l.client, a) && !a.Arrive?
    ensures LInv(w, t, LExec(t, l, a))
  {
    hide Inv, Exec, Enabled, Accepted;
    ConfirmStep(t, l.client, a);
    var k := LExec(t, l, a);
    assert k.outstanding == Elems(l.client.delivered) - Elems(l.client.confirmed + Accepted(l.client, a));
    forall u ensures |Share(k.outstanding, u)| <= w {
      SubsetSize(Share(k.outstanding, u), Share(l.outstanding, u));
    }
  }

  lemma LStepInv(w: nat, t: nat, l: Link, a: Action)
    requires t >= 2 && LInv(w, t, l) && LEnabled(w, l, a)
    ensures LInv(w, t, LExec(t, l, a))
  {
    hide LInv, LExec, Exec;
    if a.Arrive? {
      PushInv(w, t, l, a.event);
    } else {
      ConfirmInv(w, t, l, a);
    }
  }

  /** The two accounts of a client, read for one message. */
  lemma Copies(c: Client, m: Message)
    requires DeliveryAccount(c) && ConfirmAccount(c)
    ensures multiset(c.served)[m] ==
            multiset(c.confirmed)[m] + multiset(c.held)[m] + multiset(Hand(c.pc))[m] + multiset(c.givenUp)[m]
    ensures multiset(c.delivered)[m] ==
            multiset(c.served)[m] + multiset(c.passed)[m] + multiset(Callback(c.pc))[m]
            + multiset(c.current)[m] + multiset(Flat(c.arrived))[m]
  {
    hide Hand, Callback, Flat;
  }

  lemma ConfirmedDelivered(t: nat, c: Client)
    requires Inv(t, c)
    ensures Elems(c.confirmed) <= Elems(c.served) <= Elems(c.delivered)
  {
    forall m
      ensures m in c.confirmed ==> m in c.served
      ensures m in c.served ==> m in c.delivered
    {
      Copies(c, m);
      hide *;
      InCopies(c.confirmed, m);
      InCopies(c.served, m);
      InCopies(c.delivered, m);
    }
  }

  lemma {:induction false} LRunInv(w: nat, t: nat, l: Link, acts: seq<Action>)
    requires t >= 2 && LInv(w, t, l) && LValid(w, t, l, acts)
    ensures LInv(w, t, LRun(w, t, l, acts))
  {
    if acts != [] {
      LRunInv(w, t, l, acts[..|acts| - 1]);
      LStepInv(w, t, LRun(w, t, l, acts[..|acts| - 1]), acts[|acts| - 1]);
    }
  }

  /** Exactly what the broker is still waiting for. */
  lemma OutstandingParts(w: nat, t: nat, l: Link)
    requires LInv(w, t, l)
    ensures var c := l.client;
            l.outstanding == Lost(c) + Elems(c.held) + Elems(Hand(c.pc)) + Elems(Callback(c.pc))
                             + Elems(c.current) + Elems(Flat(c.arrived))
  {
    var c := l.client;
    hide Inv, DeliveryAccount, ConfirmAccount, Hand, Callback, Flat;
    forall m
      ensures m in l.outstanding <==>
              m in c.passed || m in c.givenUp || m in c.held || m in Hand(c.pc) || m in Callback(c.pc)
              || m in c.current || m in Flat(c.arrived)
    {
      Place(t, c, m);
    }
  }

  /** With no message delivered twice, an unconfirmed message has exactly one place. */
  lemma Place(t: nat, c: Client, m: Message)
    requires Inv(t, c) && NoDup(c.delivered)
    ensures m in c.delivered && m !in c.confirmed <==>
            m in c.passed || m in c.givenUp || m in c.held || m in Hand(c.pc) || m in Callback(c.pc)
            || m in c.current || m in Flat(c.arrived)
  {
    Copies(c, m);
    assert multiset(c.delivered)[m] <= 1;
    hide *;
    InCopies(c.delivered, m);
    InCopies(c.confirmed, m);
    InCopies(c.passed, m);
    InCopies(c.givenUp, m);
    InCopies(c.held, m);
    InCopies(Hand(c.pc), m);
    InCopies(Callback(c.pc), m);
    InCopies(c.current, m);
    InCopies(Flat(c.arrived), m);
  }

  /**
   No process serves or confirms a message twice, and what it confirmed, still holds, has in hand
   and gave up are different messages.
   */
  lemma ConfirmedOnce(w: nat, t: nat, l: Link)
    requires LInv(w, t, l)
    ensures var c := l.client; NoDup(c.served) && NoDup(c.confirmed + c.held + Hand(c.pc) + c.givenUp)
  {
    hide Inv, Hand, Share;
    var c := l.client;
    forall m
      ensures multiset(c.served)[m] <= 1
      ensures multiset(c.confirmed + c.held + Hand(c.pc) + c.givenUp)[m] <= 1
    {
      CopiesOnce(t, c, m);
    }
  }

  lemma CopiesOnce(t: nat, c: Client, m: Message)
    requires Inv(t, c) && NoDup(c.delivered)
    ensures multiset(c.served)[m] <= 1
    ensures multiset(c.confirmed + c.held + Hand(c.pc) + c.givenUp)[m] <= 1
  {
    Copies(c, m);
    assert multiset(c.delivered)[m] <= 1;
  }

  /** What a process has served and not confirmed is in its builder, in its hand or given up. */
  lemma Unconfirmed(t: nat, c: Client, m: Message)
    requires Inv(t, c) && m in c.served && m !in c.confirmed
    ensures m in c.held || m in Hand(c.pc) || m in c.givenUp
  {
    Copies(c, m);
    hide *;
    InCopies(c.served, m);
    InCopies(c.confirmed, m);
    InCopies(c.held, m);
    InCopies(Hand(c.pc), m);
    InCopies(c.givenUp, m);
  }

  /** The message a process takes next is outstanding to it and it has not served it. */
  lemma TakenIsNew(w: nat, t: nat, l: Link)
    requires LInv(w, t, l) && Enabled(l.client, Take)
    ensures var m := l.client.current[0]; m in l.outstanding && m !in l.client.served
  {
    hide Inv, Share;
    OutstandingParts(w, t, l);
    assert l.client.current[0] in Elems(l.client.current);
    CurrentNotServed(t, l.client, l.client.current[0]);
  }

  lemma CurrentNotServed(t: nat, c: Client, m: Message)
    requires Inv(t, c) && NoDup(c.delivered) && m in c.current
    ensures m !in c.served
  {
    Copies(c, m);
    assert multiset(c.delivered)[m] <= 1;
    hide *;
    InCopies(c.current, m);
    InCopies(c.served, m);
  }

  // ---- The window as a progress argument ----

  /** The receive loop wants more, has nothing to read and no flush due, and u's window is full. */
  ghost predicate Stalled(w: nat, l: Link, u: Uri) {
    Ready(l.client) && l.client.wanted >= 1 && |Share(l.outstanding, u)| >= w
  }

  /**
   A batched pull cannot stall on a queue as long as the slots already lost there leave room for
   a threshold's worth of messages and one more for each of its failed flushes.
   */
  lemma NoStall(w: nat, t: nat, l: Link, u: Uri)
    requires t >= 2 && LInv(w, t, l)
    requires |Share(Lost(l.client), u)| + t + l.client.badFlushes <= w
    ensures !Stalled(w, l, u)
  {
    var c := l.client;
    if Stalled(w, l, u) {
      OutstandingParts(w, t, l);
      ElemsSize(c.held);
      assert l.outstanding == Lost(c) + Elems(c.held);
      assert Share(l.outstanding, u) <= Share(Lost(c), u) + Elems(c.held);
      SubsetSize(Share(l.outstanding, u), Share(Lost(c), u) + Elems(c.held));
    }
  }

  /** The receive part of one batched call in which nothing fails. */
  ghost predicate BatchedPull(acts: seq<Action>) {
    && acts != [] && acts[0].Begin? && acts[0].mode.Batched?
    && forall i :: 1 <= i < |acts| ==> Faultless(acts[i]) && !acts[i].Begin? && !acts[i].End?
  }

  lemma PullStep(t: nat, c: Client, a: Action)
    requires Shape(c) && c.mode.Batched? && Enabled(c, a) && Faultless(a) && !a.Begin? && !a.End?
    ensures var d := Exec(t, c, a);
            d.mode.Batched? && d.passed == c.passed && d.givenUp == c.givenUp && d.badFlushes == c.badFlushes
  {
  }

  lemma {:induction false} PullLosesNothing(w: nat, t: nat, l: Link, acts: seq<Action>)
    requires t >= 2 && LInv(w, t, l) && LValid(w, t, l, acts) && BatchedPull(acts)
    ensures var c := LRun(w, t, l, acts).client;
            && c.badFlushes == 0 && c.mode.Batched?
            && c.passed == l.client.passed && c.givenUp == l.client.givenUp
  {
    var front, a := acts[..|acts| - 1], acts[|acts| - 1];
    if |acts| == 1 {
      assert LRun(w, t, l, front) == l;
    } else {
      PullLosesNothing(w, t, l, front);
      LRunInv(w, t, l, front);
      var k := LRun(w, t, l, front);
      assert LRun(w, t, l, acts) == LExec(t, k, a) && LEnabled(w, k, a);
      hide Exec, Enabled, LRun, LValid, BuilderBound, DeliveryAccount, EffectOrder, ConfirmAccount, ConfirmOrder;
      PullStep(t, k.client, a);
    }
  }

  lemma {:induction false} LRunClient(w: nat, t: nat, l: Link, acts: seq<Action>)
    requires LValid(w, t, l, acts)
    ensures Valid(t, l.client, acts)
    ensures LRun(w, t, l, acts).client == Run(t, l.client, acts)
    ensures LRun(w, t, l, acts).handles == l.handles
  {
    if acts != [] {
      LRunClient(w, t, l, acts[..|acts| - 1]);
    }
  }

  lemma LSnoc(w: nat, t: nat, l: Link, acts: seq<Action>, a: Action)
    requires LValid(w, t, l, acts) && Valid(t, l.client, acts + [a])
    requires a.Arrive? ==> PushAllowed(w, LRun(w, t, l, acts), a.event)
    ensures LValid(w, t, l, acts + [a])
  {
    assert (acts + [a])[..|acts + [a]| - 1] == acts;
    LRunClient(w, t, l, acts);
  }

  lemma ValidPrefix(t: nat, c: Client, acts: seq<Action>, a: Action)
    requires Valid(t, c, acts + [a])
    ensures Valid(t, c, acts)
  {
    assert (acts + [a])[..|acts + [a]| - 1] == acts;
  }

  /** The state of a link after messages were fed to it. */
  lemma Fed(w: nat, t: nat, l: Link, acts: seq<Action>, ms: seq<Message>)
    requires t >= 2 && LInv(w, t, l) && LValid(w, t, l, acts) && LValid(w, t, l, acts + Feed(ms))
    requires var k := LRun(w, t, l, acts).client;
             Ready(k) && k.wanted >= |ms| && |k.held| + |ms| < t && forall m :: m in ms ==> m !in k.delivered
    ensures var k := LRun(w, t, l, acts); var d := LRun(w, t, l, acts + Feed(ms));
            && d.client == k.client.(delivered := k.client.delivered + ms, served := k.client.served + ms,
                                     held := k.client.held + ms, wanted := k.client.wanted - |ms|)
            && d.outstanding == k.outstanding + Elems(ms)
            && d.handles == l.handles
  {
    hide LInv, Exec, Enabled, Run, Valid, LRun, LValid, LExec, LEnabled, Feed;
    var k, d := LRun(w, t, l, acts), LRun(w, t, l, acts + Feed(ms));
    LRunClient(w, t, l, acts);
    LRunClient(w, t, l, acts + Feed(ms));
    FeedRun(t, k.client, ms);
    RunAppend(t, l.client, acts, Feed(ms));
    LRunInv(w, t, l, acts);
    LRunInv(w, t, l, acts + Feed(ms));
    FedOutstanding(w, t, k, d, ms);
  }

  lemma FedOutstanding(w: nat, t: nat, k: Link, d: Link, ms: seq<Message>)
    requires LInv(w, t, k) && LInv(w, t, d)
    requires d.client.delivered == k.client.delivered + ms && d.client.confirmed == k.client.confirmed
    requires forall m :: m in ms ==> m !in k.client.delivered
    ensures d.outstanding == k.outstanding + Elems(ms)
  {
    hide Inv;
    forall m | m in ms ensures m !in k.client.confirmed {
      NotConfirmed(w, t, k, m);
    }
  }

  /** Feeding fresh messages of a queue with room for them is a run of the link. */
  lemma {:induction false} LFeed(w: nat, t: nat, l: Link, acts: seq<Action>, u: Uri, ms: seq<Message>)
    requires t >= 2 && LInv(w, t, l) && LValid(w, t, l, acts) && u in l.handles
    requires var k := LRun(w, t, l, acts);
             && Ready(k.client) && k.client.wanted >= |ms| && |k.client.held| + |ms| < t
             && (forall m :: m in ms ==> m.uri == u && m !in k.client.delivered)
             && NoDup(ms) && |Share(k.outstanding, u)| + |ms| <= w
    ensures LValid(w, t, l, acts + Feed(ms))
  {
    hide Exec, Enabled, Inv, LInv, LRun, LExec, LEnabled, PushAllowed, NoDup;
    if ms == [] {
      assert acts + Feed(ms) == acts;
    } else {
      var front, m := ms[..|ms| - 1], ms[|ms| - 1];
      assert ms == front + [m];
      NoDupFront(front, m);
      LFeed(w, t, l, acts, u, front);
      Fed(w, t, l, acts, front);
      var xs := acts + Feed(front);
      FeedAllowed(w, LRun(w, t, l, acts), LRun(w, t, l, xs), u, front, m);
      LFeedOne(w, t, l, xs, m);
      FeedSplit(front, m);
      assert acts + Feed(ms) == xs + Feed([m]);
    }
  }

  lemma FeedAllowed(w: nat, k: Link, f: Link, u: Uri, front: seq<Message>, m: Message)
    requires f.client.delivered == k.client.delivered + front && f.outstanding == k.outstanding + Elems(front)
    requires u in f.handles && m.uri == u && m !in k.client.delivered && m !in front
    requires |Share(k.outstanding, u)| + |front| + 1 <= w
    ensures PushAllowed(w, f, [m])
  {
    RoomForOne(w, k.outstanding, u, front, m);
    forall x ensures multiset([m])[x] <= 1 {
    }
  }

  lemma NoDupFront(front: seq<Message>, m: Message)
    requires NoDup(front + [m])
    ensures NoDup(front) && m !in front
  {
    forall x ensures multiset(front)[x] <= 1 {
      assert multiset(front + [m])[x] == multiset(front)[x] + multiset([m])[x];
    }
    assert multiset(front + [m])[m] == multiset(front)[m] + 1;
    InCopies(front, m);
  }

  lemma RoomForOne(w: nat, s: set<Message>, u: Uri, front: seq<Message>, m: Message)
    requires |Share(s, u)| + |front| + 1 <= w && m.uri == u
    ensures |Share(s + Elems(front) + Elems([m]), u)| <= w
  {
    var all := Share(s, u) + Elems(front) + {m};
    ElemsSize(front);
    assert |all| <= |Share(s, u)| + |Elems(front)| + 1;
    SubsetSize(Share(s + Elems(front) + Elems([m]), u), all);
  }

  lemma LFeedOne(w: nat, t: nat, l: Link, acts: seq<Action>, m: Message)
    requires t >= 2 && LInv(w, t, l) && LValid(w, t, l, acts)
    requires var k := LRun(w, t, l, acts); Ready(k.client) && k.client.wanted >= 1
    requires PushAllowed(w, LRun(w, t, l, acts), [m])
    ensures LValid(w, t, l, acts + Feed([m]))
  {
    hide Exec, Enabled, Inv, Run, Valid, LRun, LValid, PushAllowed;
    LRunClient(w, t, l, acts);
    FeedOne(t, LRun(w, t, l, acts).client, m);
    RunAppend(t, l.client, acts, Feed([m]));
    var a1, a2, a3 := acts + [Arrive([m])], acts + [Arrive([m])] + [Read], acts + [Arrive([m])] + [Read] + [Take];
    assert Feed([m]) == [Arrive([m]), Read, Take, AddOk];
    assert acts + Feed([m]) == a3 + [AddOk];
    ValidPrefix(t, l.client, a3, AddOk);
    ValidPrefix(t, l.client, a2, Take);
    ValidPrefix(t, l.client, a1, Read);
    LSnoc(w, t, l, acts, Arrive([m]));
    LSnoc(w, t, l, a1, Read);
    LSnoc(w, t, l, a2, Take);
    LSnoc(w, t, l, a3, AddOk);
  }

  lemma NotConfirmed(w: nat, t: nat, l: Link, m: Message)
    requires LInv(w, t, l) && m !in l.client.delivered
    ensures m !in l.client.confirmed
  {
    ConfirmedDelivered(t, l.client);
    assert m !in Elems(l.client.delivered);
  }

  lemma LStep(w: nat, t: nat, l: Link, acts: seq<Action>, a: Action)
    requires LValid(w, t, l, acts) && LEnabled(w, LRun(w, t, l, acts), a)
    ensures LValid(w, t, l, acts + [a]) && LRun(w, t, l, acts + [a]) == LExec(t, LRun(w, t, l, acts), a)
  {
    assert (acts + [a])[..|acts + [a]| - 1] == acts;
  }

  // ---- Events already queued ----

  /** A batched pull at its loop head, with room for `room` messages beyond those it can already read. */
  ghost predicate AtLoop(w: nat, t: nat, l: Link, acts: seq<Action>, room: nat) {
    && LValid(w, t, l, acts) && BatchedPull(acts) && (forall a :: a in acts ==> !a.Arrive?)
    && var c := LRun(w, t, l, acts).client;
       c.pc.Receiving? && c.mode.Batched? && c.wanted >= room + |c.current| + |Flat(c.arrived)|
  }

  /** `d` follows `c` in a pull that serves the messages it has and receives no others. */
  ghost predicate Served(c: Client, d: Client, n: int) {
    && d.pc.Receiving? && d.mode.Batched? && d.delivered == c.delivered
    && |d.served| == |c.served| + n && d.wanted == c.wanted - n
  }

  lemma PullOn(w: nat, t: nat, l: Link, acts: seq<Action>, a: Action)
    requires LValid(w, t, l, acts) && BatchedPull(acts) && LEnabled(w, LRun(w, t, l, acts), a)
    requires Faultless(a) && !a.Begin? && !a.End?
    ensures LValid(w, t, l, acts + [a]) && BatchedPull(acts + [a])
    ensures LRun(w, t, l, acts + [a]) == LExec(t, LRun(w, t, l, acts), a)
  {
    hide LValid, LRun, LEnabled, LExec, Enabled, Faultless;
    LStep(w, t, l, acts, a);
  }

  lemma TakeAdd(t: nat, c: Client) returns (d: Client, e: Client, f: Client)
    requires c.pc.Receiving? && c.mode.Batched? && c.current != [] && c.wanted > 0
    ensures Enabled(c, Take) && d == Exec(t, c, Take)
    ensures Enabled(d, AddOk) && e == Exec(t, d, AddOk)
    ensures e.pc.FlushDue? ==> Enabled(e, Flush(true)) && f == Exec(t, e, Flush(true))
    ensures !e.pc.FlushDue? ==> f == e
    ensures Served(c, f, 1) && f.current == c.current[1..] && f.arrived == c.arrived
  {
    d := Exec(t, c, Take);
    e := Exec(t, d, AddOk);
    f := if e.pc.FlushDue? then Exec(t, e, Flush(true)) else e;
  }

  lemma TakeQueued(w: nat, t: nat, l: Link, acts: seq<Action>, room: nat) returns (acts': seq<Action>)
    requires AtLoop(w, t, l, acts, room) && LRun(w, t, l, acts).client.current != []
    ensures AtLoop(w, t, l, acts', room)
    ensures var c, f := LRun(w, t, l, acts).client, LRun(w, t, l, acts').client;
            Served(c, f, 1) && f.current == c.current[1..] && f.arrived == c.arrived
  {
    hide LValid, LRun, BatchedPull, Exec, Enabled, Served, Flat;
    var d, e, f := TakeAdd(t, LRun(w, t, l, acts).client);
    PullOn(w, t, l, acts, Take);
    PullOn(w, t, l, acts + [Take], AddOk);
    acts' := acts + [Take] + [AddOk];
    if e.pc.FlushDue? {
      PullOn(w, t, l, acts', Flush(true));
      acts' := acts' + [Flush(true)];
    }
    assert LRun(w, t, l, acts').client == f;
    ServedLeaves(LRun(w, t, l, acts).client, f, 1);
  }

  lemma ServedLeaves(c: Client, d: Client, n: int)
    requires Served(c, d, n)
    ensures d.pc.Receiving? && d.mode.Batched? && d.wanted == c.wanted - n
  {
  }

  lemma ReadQueued(w: nat, t: nat, l: Link, acts: seq<Action>, room: nat)
    requires AtLoop(w, t, l, acts, room)
    requires var c := LRun(w, t, l, acts).client; c.current == [] && c.arrived != [] && c.wanted > 0
    ensures AtLoop(w, t, l, acts + [Read], room)
    ensures var c, d := LRun(w, t, l, acts).client, LRun(w, t, l, acts + [Read]).client;
            d == c.(current := c.arrived[0], arrived := c.arrived[1..])
  {
    hide LValid, LRun, BatchedPull;
    PullOn(w, t, l, acts, Read);
    FlatHead(LRun(w, t, l, acts).client.arrived);
  }

  /** Everything already queued can be read and served, with a flush whenever one is due. */
  lemma {:induction false} Drain(w: nat, t: nat, l: Link, acts: seq<Action>, room: nat) returns (acts': seq<Action>)
    requires AtLoop(w, t, l, acts, room) && room > 0
    ensures AtLoop(w, t, l, acts', room)
    ensures var c, d := LRun(w, t, l, acts).client, LRun(w, t, l, acts').client;
            && Ready(d) && Served(c, d, |c.current| + |Flat(c.arrived)|)
            && (c.current == [] && c.arrived == [] ==> acts' == acts)
    decreases var c := LRun(w, t, l, acts).client; |c.current| + |Flat(c.arrived)|,
              |LRun(w, t, l, acts).client.arrived|
  {
    hide LValid, LRun, BatchedPull;
    var c := LRun(w, t, l, acts).client;
    if c.current != [] {
      acts' := TakeQueued(w, t, l, acts, room);
      acts' := Drain(w, t, l, acts', room);
    } else if c.arrived != [] {
      FlatHead(c.arrived);
      ReadQueued(w, t, l, acts, room);
      acts' := Drain(w, t, l, acts + [Read], room);
    } else {
      acts' := acts;
    }
  }

  // ---- The stall ----

  /** Fresh messages that are pushed, read and batched one at a time. */
  lemma FeedFresh(w: nat, t: nat, l: Link, acts: seq<Action>, u: Uri, n: nat) returns (acts': seq<Action>)
    requires t >= 2 && LInv(w, t, l) && LValid(w, t, l, acts) && BatchedPull(acts) && u in l.handles
    requires var k := LRun(w, t, l, acts);
             && Ready(k.client) && k.client.wanted >= n && |k.client.held| + n < t
             && |Share(k.outstanding, u)| + n <= w
    ensures LValid(w, t, l, acts') && BatchedPull(acts')
    ensures var k, d := LRun(w, t, l, acts), LRun(w, t, l, acts');
            && Ready(d.client) && d.client.wanted == k.client.wanted - n && |d.client.held| == |k.client.held| + n
            && |d.client.served| == |k.client.served| + n && |Share(d.outstanding, u)| == |Share(k.outstanding, u)| + n
  {
    hide Inv, LRun, LValid, Share, NoDup, Batch, Feed, Exec, LExec, Faultless;
    var k := LRun(w, t, l, acts);
    LRunInv(w, t, l, acts);
    var ms := Batch(u, GuidBound(k.client.delivered), n);
    BatchIsNew(u, k.client.delivered, n);
    Undelivered(w, t, k, ms);
    LFeed(w, t, l, acts, u, ms);
    Fed(w, t, l, acts, ms);
    FeedFaultless(ms);
    ShareGrows(k.outstanding, u, ms);
    acts' := acts + Feed(ms);
  }

  lemma Undelivered(w: nat, t: nat, l: Link, ms: seq<Message>)
    requires LInv(w, t, l) && forall m :: m in ms ==> m !in l.client.delivered
    ensures forall m :: m in ms ==> m !in l.outstanding
  {
    hide Inv;
    assert l.outstanding <= Elems(l.client.delivered);
  }

  /** One more fresh message makes a flush due, and the flush empties the builder. */
  lemma FeedAndFlush(w: nat, t: nat, l: Link, acts: seq<Action>, u: Uri) returns (acts': seq<Action>)
    requires t >= 2 && LInv(w, t, l) && LValid(w, t, l, acts) && BatchedPull(acts) && u in l.handles
    requires var k := LRun(w, t, l, acts);
             Ready(k.client) && k.client.wanted >= 1 && |k.client.held| + 1 == t && |Share(k.outstanding, u)| + 1 <= w
    ensures LValid(w, t, l, acts') && BatchedPull(acts')
    ensures var k, d := LRun(w, t, l, acts).client, LRun(w, t, l, acts').client;
            Ready(d) && d.wanted == k.wanted - 1 && d.held == []
  {
    hide Inv, LInv, LRun, LValid, Run, Valid, Exec, Enabled, Feed, Flat, PushAllowed;
    var k := LRun(w, t, l, acts);
    LRunInv(w, t, l, acts);
    LRunClient(w, t, l, acts);
    var m := Message(GuidBound(k.client.delivered), u, []);
    FeedAllowed(w, k, k, u, [], m);
    LFeedOne(w, t, l, acts, m);
    FeedOne(t, k.client, m);
    RunAppend(t, l.client, acts, Feed([m]));
    FeedFaultless([m]);
    var fed := acts + Feed([m]);
    LRunClient(w, t, l, fed);
    FlushDueStep(t, LRun(w, t, l, fed).client);
    PullOn(w, t, l, fed, Flush(true));
    acts' := fed + [Flush(true)];
  }

  lemma FlushDueStep(t: nat, c: Client)
    requires c.pc.FlushDue?
    ensures Enabled(c, Flush(true)) && Faultless(Flush(true))
    ensures Exec(t, c, Flush(true)) == c.(pc := Receiving, confirmed := c.confirmed + c.held, held := [])
  {
  }

  /**
   The window bound, exactly. A process between two statements, with `lost` slots of queue `u`
   gone for good and any events still queued for it, can be driven into a stall by a batched pull in
   which nothing fails, if and only if those slots and a flush threshold do not both fit into
   the window. With no flush before the end of the call (any threshold above the window) that is
   always so, and then the run stops with the whole rest of the window returned (StallingRun).
   */
  lemma StallIff(w: nat, t: nat, l: Link, u: Uri)
    requires t >= 2 && LInv(w, t, l) && l.client.pc.Idle? && u in l.handles
    ensures (exists acts :: LValid(w, t, l, acts) && BatchedPull(acts) && Stalled(w, LRun(w, t, l, acts), u))
            <==> |Share(Lost(l.client), u)| + t > w
  {
    var lost := |Share(Lost(l.client), u)|;
    if lost + t > w {
      var acts := StallingRun(w, t, l, u);
    } else {
      forall acts | LValid(w, t, l, acts) && BatchedPull(acts)
        ensures !Stalled(w, LRun(w, t, l, acts), u)
      {
        LRunInv(w, t, l, acts);
        PullLosesNothing(w, t, l, acts);
        NoStall(w, t, LRun(w, t, l, acts), u);
      }
    }
  }

  /** With the broker's default window and the source's threshold, 500 lost slots are the limit. */
  lemma StallAtDefaults(l: Link, u: Uri)
    requires LInv(WINDOW, FLUSH_THRESHOLD, l) && l.client.pc.Idle? && u in l.handles
    ensures (exists acts :: LValid(WINDOW, FLUSH_THRESHOLD, l, acts) && BatchedPull(acts)
                            && Stalled(WINDOW, LRun(WINDOW, FLUSH_THRESHOLD, l, acts), u))
            <==> |Share(Lost(l.client), u)| > 500
  {
    StallIff(WINDOW, FLUSH_THRESHOLD, l, u);
  }

  /**
   The stalling run: serve what is queued, then what is pushed, until the window is full. With
   nothing queued it stops with exactly the rest of the window returned and unconfirmed.
   */
  lemma StallingRun(w: nat, t: nat, l: Link, u: Uri) returns (acts: seq<Action>)
    requires t >= 2 && LInv(w, t, l) && l.client.pc.Idle? && u in l.handles
    requires |Share(Lost(l.client), u)| + t > w
    ensures LValid(w, t, l, acts) && BatchedPull(acts) && Stalled(w, LRun(w, t, l, acts), u)
    ensures l.client.arrived == [] ==>
              |LRun(w, t, l, acts).client.served| == |l.client.served| + w - |Share(Lost(l.client), u)|
  {
    hide Inv, LInv, LRun, LValid, BatchedPull, Share, Lost;
    var room := t + w + 1;
    acts := LBegin(w, t, l, |Flat(l.client.arrived)| + room);
    acts := Drain(w, t, l, acts, room);
    LoopParts(w, t, l, acts, u);
    var k := LRun(w, t, l, acts);
    var h, n := |k.client.held|, w - |Share(k.outstanding, u)|;
    if h + n >= t {
      acts := FeedFresh(w, t, l, acts, u, t - 1 - h);
      acts := FeedAndFlush(w, t, l, acts, u);
      LoopParts(w, t, l, acts, u);
      n := w - |Share(Lost(l.client), u)|;
    }
    acts := FeedFresh(w, t, l, acts, u, n);
  }

  /** What fills the window at the loop head of a pull that has read all there was. */
  lemma LoopParts(w: nat, t: nat, l: Link, acts: seq<Action>, u: Uri)
    requires t >= 2 && LInv(w, t, l) && LValid(w, t, l, acts) && BatchedPull(acts)
    requires Ready(LRun(w, t, l, acts).client)
    ensures var k := LRun(w, t, l, acts);
            && |k.client.held| < t && |Share(k.outstanding, u)| <= w
            && (k.client.held == [] ==> |Share(k.outstanding, u)| == |Share(Lost(l.client), u)|)
  {
    LRunInv(w, t, l, acts);
    PullLosesNothing(w, t, l, acts);
    var k := LRun(w, t, l, acts);
    OutstandingParts(w, t, k);
    assert Lost(k.client) == Lost(l.client);
  }

  /**
   However it came about, a stalled pull holds in its builder, served and unconfirmed, exactly as
   many messages of the queue as the window has slots that are not lost.
   */
  lemma StalledHolds(w: nat, t: nat, l: Link, u: Uri)
    requires LInv(w, t, l) && Stalled(w, l, u)
    ensures |Share(Elems(l.client.held), u)| + |Share(Lost(l.client), u)| == w
  {
    hide Inv;
    var c := l.client;
    OutstandingParts(w, t, l);
    forall m | m in c.held ensures m !in Lost(c) {
      HeldNotLost(t, c, m);
    }
    var held, lost := Share(Elems(c.held), u), Share(Lost(c), u);
    assert Share(l.outstanding, u) == held + lost;
    assert held !! lost;
  }

  lemma HeldNotLost(t: nat, c: Client, m: Message)
    requires Inv(t, c) && NoDup(c.delivered) && m in c.held
    ensures m !in Lost(c)
  {
    Copies(c, m);
    assert multiset(c.delivered)[m] <= 1;
    hide *;
    InCopies(c.held, m);
    InCopies(c.passed, m);
    InCopies(c.givenUp, m);
  }

  lemma BatchIsNew(u: Uri, s: seq<Message>, n: nat)
    ensures var ms := Batch(u, GuidBound(s), n);
            NoDup(ms) && forall m :: m in ms ==> m.uri == u && m !in s
  {
    BatchNoDup(u, GuidBound(s), n);
  }

  lemma ShareGrows(s: set<Message>, u: Uri, ms: seq<Message>)
    requires NoDup(ms) && forall m :: m in ms ==> m.uri == u && m !in s
    ensures |Share(s + Elems(ms), u)| == |Share(s, u)| + |ms|
  {
    NoDupSize(ms);
    assert Share(s + Elems(ms), u) == Share(s, u) + Elems(ms);
    assert Share(s, u) !! Elems(ms);
  }

  lemma LBegin(w: nat, t: nat, l: Link, max: nat) returns (acts: seq<Action>)
    requires t >= 2 && LInv(w, t, l) && l.client.pc.Idle? && max >= 1
    requires max >= |Flat(l.client.arrived)|
    ensures AtLoop(w, t, l, acts, max - |Flat(l.client.arrived)|)
    ensures LRun(w, t, l, acts).client == l.client.(pc := Receiving, mode := Batched, wanted := max, badFlushes := 0)
    ensures l.client.current == [] && l.client.held == []
  {
    acts := [] + [Begin(Batched, max)];
    LStep(w, t, l, [], Begin(Batched, max));
  }

  // ---- Slots that are never given back ----

  /**
   Accounting over any number of calls (or callbacks) whose confirms succeed, read between two
   of them: the confirmed messages are exactly the served ones, every delivered message was
   served, passed over, or is still queued, and the broker waits for exactly the last two kinds.
   */
  lemma Accounting(w: nat, t: nat, start: Client, handles: set<Uri>, acts: seq<Action>)
    requires t >= 2 && start in {NEW_BACKEND, NEW_WORKER} && LValid(w, t, Fresh(start, handles), acts)
    requires forall a :: a in acts ==> Faultless(a)
    requires var c := LRun(w, t, Fresh(start, handles), acts).client; c.pc.Idle? || c.pc.Checking?
    ensures var l := LRun(w, t, Fresh(start, handles), acts); var c := l.client;
            && c.confirmed == c.served
            && multiset(c.delivered) ==
               multiset(c.served) + multiset(c.passed) + multiset(c.current) + multiset(Flat(c.arrived))
            && l.outstanding == Elems(c.passed) + Elems(c.current) + Elems(Flat(c.arrived))
  {
    var l0 := Fresh(start, handles);
    FreshInv(w, t, start, handles);
    LRunInv(w, t, l0, acts);
    LRunClient(w, t, l0, acts);
    FaultlessRun(t, start, acts);
    var l := LRun(w, t, l0, acts);
    OutstandingParts(w, t, l);
    Settled(t, l.client);
  }

  lemma Settled(t: nat, c: Client)
    requires Inv(t, c) && c.givenUp == [] && (c.pc.Idle? || c.pc.Checking?)
    ensures c.confirmed == c.served && c.held == [] && Hand(c.pc) == [] && Callback(c.pc) == []
    ensures multiset(c.delivered) ==
            multiset(c.served) + multiset(c.passed) + multiset(c.current) + multiset(Flat(c.arrived))
  {
    hide Flat;
    assert c.served == c.confirmed + [] + [];
  }

  lemma LostGrows(t: nat, c: Client, a: Action)
    requires Enabled(c, a)
    ensures Lost(c) <= Lost(Exec(t, c, a))
  {
  }

  /**
   Once the messages passed over or given up on a queue fill its window, that queue delivers
   nothing more to this process, whatever it calls and however those calls end.
   */
  lemma {:induction false} StarvedForGood(w: nat, t: nat, l: Link, u: Uri, acts: seq<Action>)
    requires t >= 2 && LInv(w, t, l) && LValid(w, t, l, acts) && |Share(Lost(l.client), u)| >= w
    ensures forall m :: m in LRun(w, t, l, acts).client.delivered && m.uri == u ==> m in l.client.delivered
    ensures Lost(l.client) <= Lost(LRun(w, t, l, acts).client)
  {
    if acts != [] {
      var front, a := acts[..|acts| - 1], acts[|acts| - 1];
      StarvedForGood(w, t, l, u, front);
      LRunInv(w, t, l, front);
      var k := LRun(w, t, l, front);
      assert LEnabled(w, k, a) && LRun(w, t, l, acts) == LExec(t, k, a);
      LostGrows(t, k.client, a);
      if a.Arrive? {
        StarvedPush(w, t, k, u, Lost(l.client), a.event);
      } else {
        ConfirmStep(t, k.client, a);
      }
    }
  }

  lemma StarvedPush(w: nat, t: nat, k: Link, u: Uri, lost: set<Message>, event: seq<Message>)
    requires LInv(w, t, k) && PushAllowed(w, k, event) && lost <= Lost(k.client) && |Share(lost, u)| >= w
    ensures forall m :: m in event ==> m.uri != u
  {
    OutstandingParts(w, t, k);
    forall m | m in event ensures m.uri != u {
      if m.uri == u {
        assert m !in k.outstanding;
        assert Share(lost, u) + {m} <= Share(k.outstanding + Elems(event), u);
        SubsetSize(Share(lost, u) + {m}, Share(k.outstanding + Elems(event), u));
      }
    }
  }
}

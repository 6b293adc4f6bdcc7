/**
 Filters. The broker decides whether a message passes a handle's filter when the message arrives
 at the broker, under the filter in force then, and never again; the cache of handles says which
 filter is in force.
 */
module Filters {
  import opened Messages
  import opened ClientMachine
  import opened Flow
  import opened Queues
  import HandleCache

  /** A backend, its handles, and what the broker has queued for it. */
  datatype Session = Session(
    link: Link,
    cache: HandleCache.Cache,
    bound: map<Message, string>   // messages bound for its handles, and the filter each arrived under
  )

  datatype Move =
    | Ask(r: HandleCache.Request)         // what a publish or a consume starts with
    | Arrival(m: Message, mine: bool)     // at the broker, from any publisher; or bound for another consumer
    | Act(a: Action)

  /** The filter language stays uninterpreted; an empty expression is no filter. */
  predicate Passes(matches: (string, Message) -> bool, expr: string, m: Message) {
    expr == "" || matches(expr, m)
  }

  /** The filter a message meets on arrival: none while the process has no handle for its queue. */
  function InForce(c: HandleCache.Cache, u: Uri): string {
    if u in c.queues then c.queues[u] else ""
  }

  ghost predicate Can(w: nat, x: Session, v: Move) {
    match v
    case Ask(_) => x.link.client.pc.Idle?
    case Arrival(m, _) => m !in x.bound && m !in x.link.client.delivered
    case Act(a) => LEnabled(w, x.link, a) && (a.Arrive? ==> forall m :: m in a.event ==> m in x.bound)
  }

  ghost function Moved(matches: (string, Message) -> bool, w: nat, t: nat, x: Session, v: Move): Session
    requires Can(w, x, v)
  {
    match v
    case Ask(r) =>
      var c := HandleCache.Serve(x.cache, r).0;
      x.(cache := c, link := x.link.(handles := c.queues.Keys))
    case Arrival(m, mine) =>
      var expr := InForce(x.cache, m.uri);
      if mine && Passes(matches, expr, m) then x.(bound := x.bound[m := expr]) else x
    case Act(a) => x.(link := LExec(t, x.link, a))
  }

  ghost predicate MValid(matches: (string, Message) -> bool, w: nat, t: nat, x: Session, vs: seq<Move>)
    decreases |vs|, 0
  {
    vs == [] ||
    (MValid(matches, w, t, x, vs[..|vs| - 1])
     && Can(w, MRun(matches, w, t, x, vs[..|vs| - 1]), vs[|vs| - 1]))
  }

  ghost function MRun(matches: (string, Message) -> bool, w: nat, t: nat, x: Session, vs: seq<Move>): Session
    requires MValid(matches, w, t, x, vs)
    decreases |vs|, 1
  {
    if vs == [] then x
    else Moved(matches, w, t, MRun(matches, w, t, x, vs[..|vs| - 1]), vs[|vs| - 1])
  }

  // ---- Invariants ----

  ghost predicate SessionInv(matches: (string, Message) -> bool, w: nat, t: nat, x: Session) {
    && LInv(w, t, x.link) && x.link.handles == x.cache.queues.Keys
    && forall m :: m in x.bound ==> Passes(matches, x.bound[m], m)
  }

  lemma ServeKeepsQueues(c: HandleCache.Cache, r: HandleCache.Request)
    ensures c.queues.Keys <= HandleCache.Serve(c, r).0.queues.Keys
  {
  }

  lemma MoreHandles(w: nat, t: nat, l: Link, handles: set<Uri>)
    requires LInv(w, t, l) && l.handles <= handles
    ensures LInv(w, t, l.(handles := handles))
  {
    hide Inv, NoDup;
  }

  lemma MovedInv(matches: (string, Message) -> bool, w: nat, t: nat, x: Session, v: Move)
    requires t >= 2 && SessionInv(matches, w, t, x) && Can(w, x, v)
    ensures SessionInv(matches, w, t, Moved(matches, w, t, x, v))
  {
    hide LInv, Exec, Enabled, HandleCache.Serve, PushAllowed;
    match v
    case Ask(r) =>
      ServeKeepsQueues(x.cache, r);
      MoreHandles(w, t, x.link, HandleCache.Serve(x.cache, r).0.queues.Keys);
    case Arrival(_, _) =>
    case Act(a) => LStepInv(w, t, x.link, a);
  }

  lemma {:induction false} MRunInv(matches: (string, Message) -> bool, w: nat, t: nat, x: Session, vs: seq<Move>)
    requires t >= 2 && SessionInv(matches, w, t, x) && MValid(matches, w, t, x, vs)
    ensures SessionInv(matches, w, t, MRun(matches, w, t, x, vs))
  {
    if vs != [] {
      MRunInv(matches, w, t, x, vs[..|vs| - 1]);
      hide SessionInv, Can, Moved;
      MovedInv(matches, w, t, MRun(matches, w, t, x, vs[..|vs| - 1]), vs[|vs| - 1]);
    }
  }

  /** The session of a new backend. */
  const NEW_SESSION := Session(Fresh(NEW_BACKEND, {}), HandleCache.EMPTY, map[])

  lemma NewSessionInv(matches: (string, Message) -> bool, w: nat, t: nat)
    requires t >= 2
    ensures SessionInv(matches, w, t, NEW_SESSION)
  {
    FreshInv(w, t, NEW_BACKEND, {});
  }

  // ---- Calls with one filter ----

  /** No request asks for another filter on `u`. */
  ghost predicate Steady(u: Uri, expr: string, vs: seq<Move>) {
    forall v :: v in vs && v.Ask? && v.r.uri == u ==> v.r.expr == "" || v.r.expr == expr
  }

  /** What can still reach the process from `u`: queued in its session, or bound for it. */
  ghost predicate Backlog(x: Session, u: Uri, m: Message) {
    m.uri == u && (m in Flat(x.link.client.arrived) || (m in x.bound && m !in x.link.client.delivered))
  }

  /** Since `x`, everything that was bound or delivered on `u` passed the filter. */
  ghost predicate Since(matches: (string, Message) -> bool, u: Uri, expr: string, x: Session, y: Session) {
    && u in y.cache.queues && y.cache.queues[u] == expr
    && x.link.client.passed <= y.link.client.passed
    && (forall m :: m in y.bound && m.uri == u ==> m in x.bound || Passes(matches, expr, m))
    && (forall m :: m in y.link.client.delivered && m.uri == u ==>
          m in x.link.client.delivered || m in x.bound || Passes(matches, expr, m))
  }

  lemma AskKeeps(c: HandleCache.Cache, r: HandleCache.Request, u: Uri, expr: string)
    requires u in c.queues && c.queues[u] == expr && (r.uri == u ==> r.expr == "" || r.expr == expr)
    ensures var d := HandleCache.Serve(c, r).0; u in d.queues && d.queues[u] == expr
  {
  }

  lemma MovedSince(matches: (string, Message) -> bool, w: nat, t: nat, u: Uri, expr: string, x: Session, y: Session, v: Move)
    requires Since(matches, u, expr, x, y) && Can(w, y, v)
    requires v.Ask? && v.r.uri == u ==> v.r.expr == "" || v.r.expr == expr
    ensures Since(matches, u, expr, x, Moved(matches, w, t, y, v))
  {
    hide Exec, Enabled, HandleCache.Serve, PushAllowed, Passes;
    match v
    case Ask(r) => AskKeeps(y.cache, r, u, expr);
    case Arrival(_, _) =>
    case Act(a) =>
      DeliveredStep(t, y.link.client, a);
      PassedStep(t, y.link.client, a);
  }

  lemma {:induction false} MRunSince(matches: (string, Message) -> bool, w: nat, t: nat, u: Uri, expr: string,
                                     x: Session, vs: seq<Move>)
    requires u in x.cache.queues && x.cache.queues[u] == expr
    requires MValid(matches, w, t, x, vs) && Steady(u, expr, vs)
    ensures Since(matches, u, expr, x, MRun(matches, w, t, x, vs))
  {
    if vs != [] {
      MRunSince(matches, w, t, u, expr, x, vs[..|vs| - 1]);
      hide Since, Can, Moved;
      MovedSince(matches, w, t, u, expr, x, MRun(matches, w, t, x, vs[..|vs| - 1]), vs[|vs| - 1]);
    }
  }

  /** A run that takes a message of `u` the filter does not match. */
  ghost predicate TakesUnmatched(matches: (string, Message) -> bool, w: nat, t: nat, u: Uri, expr: string,
                                 x: Session, vs: seq<Move>) {
    && MValid(matches, w, t, x, vs) && Steady(u, expr, vs)
    && exists m :: m in MRun(matches, w, t, x, vs).link.client.served && m !in x.link.client.served
                   && m.uri == u && expr != "" && !matches(expr, m)
  }

  /** What was there before the filter was asked for matches it as well, as far as it can still be delivered. */
  ghost predicate BacklogMatches(matches: (string, Message) -> bool, w: nat, u: Uri, expr: string, x: Session) {
    && (forall m :: m in Flat(x.link.client.arrived) && m.uri == u ==> expr == "" || matches(expr, m))
    && (|Share(Lost(x.link.client), u)| >= w
        || forall m :: m in x.bound && m !in x.link.client.delivered && m.uri == u ==> expr == "" || matches(expr, m))
  }

  lemma {:induction false} MRunStarved(matches: (string, Message) -> bool, w: nat, t: nat, u: Uri,
                                       x: Session, vs: seq<Move>, m: Message)
    requires t >= 2 && SessionInv(matches, w, t, x) && MValid(matches, w, t, x, vs)
    requires |Share(Lost(x.link.client), u)| >= w && m.uri == u
    ensures Lost(x.link.client) <= Lost(MRun(matches, w, t, x, vs).link.client)
    ensures m in MRun(matches, w, t, x, vs).link.client.delivered ==> m in x.link.client.delivered
  {
    if vs != [] {
      var front := vs[..|vs| - 1];
      MRunStarved(matches, w, t, u, x, front, m);
      MRunInv(matches, w, t, x, front);
      hide SessionInv, Can, Moved, Lost;
      MovedStarved(matches, w, t, u, x, MRun(matches, w, t, x, front), vs[|vs| - 1], m);
    }
  }

  lemma MovedStarved(matches: (string, Message) -> bool, w: nat, t: nat, u: Uri,
                     x: Session, y: Session, v: Move, m: Message)
    requires SessionInv(matches, w, t, y) && Can(w, y, v) && m.uri == u
    requires Lost(x.link.client) <= Lost(y.link.client) && |Share(Lost(x.link.client), u)| >= w
    ensures Lost(x.link.client) <= Lost(Moved(matches, w, t, y, v).link.client)
    ensures m in Moved(matches, w, t, y, v).link.client.delivered ==> m in y.link.client.delivered
  {
    hide LInv, Exec, Enabled, Lost, PushAllowed;
    if v.Act? {
      LostGrows(t, y.link.client, v.a);
      DeliveredStep(t, y.link.client, v.a);
      if v.a.Arrive? {
        StarvedPush(w, t, y.link, u, Lost(x.link.client), v.a.event);
      }
    }
  }

  function Acts(acts: seq<Action>): seq<Move> {
    if acts == [] then [] else Acts(acts[..|acts| - 1]) + [Act(acts[|acts| - 1])]
  }

  /** A run of the process whose pushes are of bound messages. */
  lemma {:induction false} ActsRun(matches: (string, Message) -> bool, w: nat, t: nat, x: Session, acts: seq<Action>)
    requires LValid(w, t, x.link, acts)
    requires forall a :: a in acts && a.Arrive? ==> forall m :: m in a.event ==> m in x.bound
    ensures MValid(matches, w, t, x, Acts(acts)) && forall v :: v in Acts(acts) ==> v.Act?
    ensures MRun(matches, w, t, x, Acts(acts)) == x.(link := LRun(w, t, x.link, acts))
  {
    if acts != [] {
      var front, a := acts[..|acts| - 1], acts[|acts| - 1];
      ActsRun(matches, w, t, x, front);
      assert a in acts;
      assert Acts(acts)[..|Acts(acts)| - 1] == Acts(front);
    }
  }

  lemma MatchedOnly(matches: (string, Message) -> bool, w: nat, t: nat, u: Uri, expr: string, x: Session,
                    vs: seq<Move>, m: Message)
    requires t >= 2 && SessionInv(matches, w, t, x) && x.link.client.pc.Idle?
    requires u in x.cache.queues && x.cache.queues[u] == expr && BacklogMatches(matches, w, u, expr, x)
    requires MValid(matches, w, t, x, vs) && Steady(u, expr, vs)
    requires m in MRun(matches, w, t, x, vs).link.client.served && m !in x.link.client.served && m.uri == u
    ensures expr == "" || matches(expr, m)
  {
    MRunInv(matches, w, t, x, vs);
    MRunSince(matches, w, t, u, expr, x, vs);
    var y := MRun(matches, w, t, x, vs);
    hide Inv, LInv, MValid, MRun, Flat, Lost;
    LinkParts(w, t, x.link);
    LinkParts(w, t, y.link);
    ServedWasQueued(t, x.link.client, y.link.client, m);
    if m !in Flat(x.link.client.arrived) && |Share(Lost(x.link.client), u)| >= w {
      MRunStarved(matches, w, t, u, x, vs, m);
    }
  }

  /**
   When filters hold. A call has asked for `expr` on queue `u` and has the handle with this filter. However
   it and later calls go on, as long as none asks for another filter on `u`, all messages of `u` they take
   match it, exactly if everything does that was queued under an earlier filter, or under none, and can
   still be delivered. Otherwise calls in which nothing fails return a message that does not match.
   */
  lemma FilterHoldsIff(matches: (string, Message) -> bool, w: nat, t: nat, u: Uri, expr: string, x: Session)
    requires t >= 2 && SessionInv(matches, w, t, x) && x.link.client.pc.Idle?
    requires u in x.cache.queues && x.cache.queues[u] == expr
    ensures (forall vs :: !TakesUnmatched(matches, w, t, u, expr, x, vs)) <==> BacklogMatches(matches, w, u, expr, x)
    ensures !BacklogMatches(matches, w, u, expr, x) ==>
              exists acts :: Complete(w, t, x.link, acts) && TakesUnmatched(matches, w, t, u, expr, x, Acts(acts))
  {
    hide Inv, LInv, MValid, MRun, Flat, Lost, LValid, LRun, Acts;
    if BacklogMatches(matches, w, u, expr, x) {
      forall vs ensures !TakesUnmatched(matches, w, t, u, expr, x, vs) {
        if TakesUnmatched(matches, w, t, u, expr, x, vs) {
          var m :| m in MRun(matches, w, t, x, vs).link.client.served && m !in x.link.client.served
                   && m.uri == u && expr != "" && !matches(expr, m);
          MatchedOnly(matches, w, t, u, expr, x, vs, m);
          assert false;
        }
      }
    } else {
      var acts, m := UnmatchedRun(matches, w, t, u, expr, x);
      ActsRun(matches, w, t, x, acts);
      assert TakesUnmatched(matches, w, t, u, expr, x, Acts(acts));
    }
  }

  lemma UnmatchedRun(matches: (string, Message) -> bool, w: nat, t: nat, u: Uri, expr: string, x: Session)
    returns (acts: seq<Action>, m: Message)
    requires t >= 2 && SessionInv(matches, w, t, x) && x.link.client.pc.Idle?
    requires u in x.cache.queues && !BacklogMatches(matches, w, u, expr, x)
    ensures Complete(w, t, x.link, acts) && m.uri == u && expr != "" && !matches(expr, m)
    ensures forall a :: a in acts && a.Arrive? ==> forall n :: n in a.event ==> n in x.bound
    ensures m in LRun(w, t, x.link, acts).client.served && m !in x.link.client.served
  {
    hide Inv, LInv, Flat, Lost, Complete, LRun;
    if n :| n in Flat(x.link.client.arrived) && n.uri == u && expr != "" && !matches(expr, n) {
      m := n;
      acts := QueuedServed(w, t, x.link, m);
    } else {
      m :| m in x.bound && m !in x.link.client.delivered && m.uri == u && expr != "" && !matches(expr, m);
      acts := ServeNew(w, t, x.link, m);
    }
  }

  // ---- Over whole histories of a backend ----

  /** The requests made so far. */
  function Requests(vs: seq<Move>): seq<HandleCache.Request> {
    if vs == [] then []
    else Requests(vs[..|vs| - 1]) + (if vs[|vs| - 1].Ask? then [vs[|vs| - 1].r] else [])
  }

  /** The filter a message meets is the last accepted non-empty expression for its queue. */
  lemma {:induction false} InForceIsLast(matches: (string, Message) -> bool, w: nat, t: nat, vs: seq<Move>, u: Uri)
    requires MValid(matches, w, t, NEW_SESSION, vs)
    ensures MRun(matches, w, t, NEW_SESSION, vs).cache == HandleCache.After(Requests(vs))
    ensures InForce(MRun(matches, w, t, NEW_SESSION, vs).cache, u) == HandleCache.LastFilter(Requests(vs), u)
  {
    CacheOfMoves(matches, w, t, vs);
    HandleCache.CacheIsFold(Requests(vs), u);
  }

  lemma {:induction false} CacheOfMoves(matches: (string, Message) -> bool, w: nat, t: nat, vs: seq<Move>)
    requires MValid(matches, w, t, NEW_SESSION, vs)
    ensures MRun(matches, w, t, NEW_SESSION, vs).cache == HandleCache.After(Requests(vs))
  {
    if vs != [] {
      var front, v := vs[..|vs| - 1], vs[|vs| - 1];
      CacheOfMoves(matches, w, t, front);
      hide HandleCache.Serve, LExec, Can;
      if v.Ask? {
        assert Requests(vs)[..|Requests(vs)| - 1] == Requests(front);
      } else {
        assert Requests(vs) == Requests(front);
      }
    }
  }

  ghost predicate AllBound(x: Session) {
    forall m :: m in x.link.client.delivered ==> m in x.bound
  }

  lemma MovedBound(matches: (string, Message) -> bool, w: nat, t: nat, x: Session, v: Move)
    requires AllBound(x) && Can(w, x, v)
    ensures AllBound(Moved(matches, w, t, x, v))
  {
    hide Exec, Enabled, HandleCache.Serve, PushAllowed, Passes;
    if v.Act? {
      DeliveredStep(t, x.link.client, v.a);
    }
  }

  /** Everything delivered was bound before. */
  lemma {:induction false} DeliveredBound(matches: (string, Message) -> bool, w: nat, t: nat, vs: seq<Move>)
    requires MValid(matches, w, t, NEW_SESSION, vs)
    ensures AllBound(MRun(matches, w, t, NEW_SESSION, vs))
  {
    if vs != [] {
      DeliveredBound(matches, w, t, vs[..|vs| - 1]);
      hide AllBound, Can, Moved;
      MovedBound(matches, w, t, MRun(matches, w, t, NEW_SESSION, vs[..|vs| - 1]), vs[|vs| - 1]);
    }
  }

  /**
   Filters are not retroactive: in every history of a backend each message it takes, from any queue, passed
   the filter it met when it arrived at the broker, whatever filter the call that returns it has asked for.
   */
  lemma TakenPassedOnArrival(matches: (string, Message) -> bool, w: nat, t: nat, vs: seq<Move>)
    requires t >= 2 && MValid(matches, w, t, NEW_SESSION, vs)
    ensures var y := MRun(matches, w, t, NEW_SESSION, vs);
            forall m :: m in y.link.client.served ==> m in y.bound && (y.bound[m] == "" || matches(y.bound[m], m))
  {
    NewSessionInv(matches, w, t);
    MRunInv(matches, w, t, NEW_SESSION, vs);
    DeliveredBound(matches, w, t, vs);
    var y := MRun(matches, w, t, NEW_SESSION, vs);
    hide MRun, MValid, Inv;
    ConfirmedDelivered(t, y.link.client);
    forall m | m in y.link.client.served ensures m in y.bound {
      assert m in Elems(y.link.client.served);
    }
  }

  /** At the k-th move `m` arrives for this process and passes the filter in force, if there is one. */
  ghost predicate BindsAt(matches: (string, Message) -> bool, vs: seq<Move>, k: nat, m: Message) {
    && k < |vs| && vs[k] == Arrival(m, true)
    && var expr := HandleCache.LastFilter(Requests(vs[..k]), m.uri); expr == "" || matches(expr, m)
  }

  /** What is bound for a backend, from its history: exactly what arrived for it and passed. */
  lemma {:induction false} BoundIff(matches: (string, Message) -> bool, w: nat, t: nat, vs: seq<Move>, m: Message)
    requires MValid(matches, w, t, NEW_SESSION, vs)
    ensures m in MRun(matches, w, t, NEW_SESSION, vs).bound <==> exists k :: BindsAt(matches, vs, k, m)
    ensures forall k: nat :: BindsAt(matches, vs, k, m) ==>
              m in MRun(matches, w, t, NEW_SESSION, vs).bound
              && MRun(matches, w, t, NEW_SESSION, vs).bound[m] == HandleCache.LastFilter(Requests(vs[..k]), m.uri)
  {
    hide Can, HandleCache.LastFilter, HandleCache.After, Requests, InForce;
    if vs != [] {
      var n := |vs| - 1;
      var front, v := vs[..n], vs[n];
      BoundIff(matches, w, t, front, m);
      InForceIsLast(matches, w, t, front, m.uri);
      forall k | 0 <= k < n ensures BindsAt(matches, front, k, m) == BindsAt(matches, vs, k, m) && front[..k] == vs[..k] {
        assert front[..k] == vs[..k];
      }
      var y := MRun(matches, w, t, NEW_SESSION, front);
      hide MRun, MValid, BindsAt;
      BoundStep(matches, w, t, y, v, m);
      LastMove(matches, vs, m);
    }
  }

  lemma BoundStep(matches: (string, Message) -> bool, w: nat, t: nat, y: Session, v: Move, m: Message)
    requires Can(w, y, v)
    ensures var z, expr := Moved(matches, w, t, y, v), InForce(y.cache, m.uri);
            var hit := v == Arrival(m, true) && (expr == "" || matches(expr, m));
            && (m in z.bound <==> m in y.bound || hit)
            && (m in y.bound ==> z.bound[m] == y.bound[m] && !hit)
            && (hit ==> z.bound[m] == expr)
  {
    hide Exec, Enabled, HandleCache.Serve, PushAllowed;
  }

  lemma LastMove(matches: (string, Message) -> bool, vs: seq<Move>, m: Message)
    requires vs != []
    ensures var n := |vs| - 1; var expr := HandleCache.LastFilter(Requests(vs[..n]), m.uri);
            && (BindsAt(matches, vs, n, m) <==> vs[n] == Arrival(m, true) && (expr == "" || matches(expr, m)))
            && forall k: nat :: BindsAt(matches, vs, k, m) ==> k <= n
  {
  }

  /** A session with one handle, nothing delivered, and the message bound for it if it has arrived. */
  function OneHandle(u: Uri, expr: string, bound: map<Message, string>): Session {
    Session(Fresh(NEW_BACKEND, {u}), HandleCache.Cache(true, map[u := expr]), bound)
  }

  function Willing(u: Uri, expr: string): Move {
    Ask(HandleCache.Request(u, expr, HandleCache.Answers(true, true, true, true, true, true)))
  }

  lemma FirstAsk(matches: (string, Message) -> bool, w: nat, t: nat, u: Uri)
    ensures Can(w, NEW_SESSION, Willing(u, ""))
    ensures Moved(matches, w, t, NEW_SESSION, Willing(u, "")) == OneHandle(u, "", map[])
  {
    assert map[u := ""].Keys == {u};
  }

  lemma NextAsk(matches: (string, Message) -> bool, w: nat, t: nat, u: Uri, expr: string, bound: map<Message, string>)
    requires expr != ""
    ensures var x := OneHandle(u, "", bound);
            Can(w, x, Willing(u, expr)) && Moved(matches, w, t, x, Willing(u, expr)) == OneHandle(u, expr, bound)
  {
    assert map[u := ""][u := expr] == map[u := expr] && map[u := expr].Keys == {u};
  }

  /** Publishing before the filter is asked for: the call returns a message that does not match. */
  lemma PublishThenFilter(matches: (string, Message) -> bool, w: nat, t: nat, m: Message, expr: string)
    returns (vs: seq<Move>, acts: seq<Action>)
    requires t >= 2 && w >= 1 && expr != "" && !matches(expr, m)
    ensures MValid(matches, w, t, NEW_SESSION, vs) && HandleCache.LastFilter(Requests(vs), m.uri) == expr
    ensures var x := MRun(matches, w, t, NEW_SESSION, vs);
            x.link.client.pc.Idle? && Complete(w, t, x.link, acts) && TakesUnmatched(matches, w, t, m.uri, expr, x, Acts(acts))
  {
    hide MRun, MValid, Moved, Can, SessionInv, TakesUnmatched, Complete, HandleCache.LastFilter, HandleCache.After, Requests;
    var u := m.uri;
    EmptyRun(matches, w, t);
    FirstAsk(matches, w, t, u);
    var x := MoveOn(matches, w, t, [], NEW_SESSION, Willing(u, ""));
    vs := [] + [Willing(u, "")];
    FirstArrival(matches, w, t, m);
    x := MoveOn(matches, w, t, vs, x, Arrival(m, true));
    vs := vs + [Arrival(m, true)];
    NextAsk(matches, w, t, u, expr, map[m := ""]);
    x := MoveOn(matches, w, t, vs, x, Willing(u, expr));
    vs := vs + [Willing(u, expr)];
    InForceIsLast(matches, w, t, vs, u);
    NewSessionInv(matches, w, t);
    MRunInv(matches, w, t, NEW_SESSION, vs);
    NoneLost(x.link.client, u);
    FilterHoldsIff(matches, w, t, u, expr, x);
    acts :| Complete(w, t, x.link, acts) && TakesUnmatched(matches, w, t, u, expr, x, Acts(acts));
  }

  lemma EmptyRun(matches: (string, Message) -> bool, w: nat, t: nat)
    ensures MValid(matches, w, t, NEW_SESSION, []) && MRun(matches, w, t, NEW_SESSION, []) == NEW_SESSION
  {
  }

  lemma FirstArrival(matches: (string, Message) -> bool, w: nat, t: nat, m: Message)
    ensures var x := OneHandle(m.uri, "", map[]);
            && Can(w, x, Arrival(m, true))
            && Moved(matches, w, t, x, Arrival(m, true)) == OneHandle(m.uri, "", map[m := ""])
  {
  }

  lemma NoneLost(c: Client, u: Uri)
    requires c.passed == [] && c.givenUp == []
    ensures |Share(Lost(c), u)| == 0
  {
    assert Share(Lost(c), u) == {};
  }

  lemma MoveOn(matches: (string, Message) -> bool, w: nat, t: nat, vs: seq<Move>, x: Session, v: Move) returns (y: Session)
    requires MValid(matches, w, t, NEW_SESSION, vs) && MRun(matches, w, t, NEW_SESSION, vs) == x && Can(w, x, v)
    ensures MValid(matches, w, t, NEW_SESSION, vs + [v])
    ensures y == MRun(matches, w, t, NEW_SESSION, vs + [v]) == Moved(matches, w, t, x, v)
  {
    assert (vs + [v])[..|vs + [v]| - 1] == vs;
    y := Moved(matches, w, t, x, v);
  }
}

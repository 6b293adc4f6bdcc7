/**
 The session and the cache of queue handles of one backend process, and the publish and consume
 entry points as far as they go through the cache.
 */
module HandleCache {
  import RowSplit
  import opened Wrappers
  import opened Messages

  /** Answers of the client library and the broker met by one request. */
  datatype Answers = Answers(
    starts: bool,       // Session::start
    exprValid: bool,    // addOrUpdateSubscription accepts the expression
    opens: bool,        // openQueueSync
    configures: bool,   // configureQueueSync
    packs: bool,        // packMessage
    posts: bool         // post
  )

  /** A call of get_session and get_queue; publishing asks with an empty expression. */
  datatype Request = Request(uri: Uri, expr: string, answers: Answers)

  datatype Failure = NoSession | BadExpression | NotOpened | NotConfigured

  datatype Reply = Handle | Failed(why: Failure)

  /** The process's side: g_session and g_queues. */
  datatype Cache = Cache(started: bool, queues: map<Uri, string>)

  const EMPTY := Cache(false, map[])

  function BuildsOptions(expr: string, a: Answers): bool {
    expr == "" || a.exprValid
  }

  /** get_session followed by get_queue, on the process's side. */
  function Serve(c: Cache, r: Request): (Cache, Reply) {
    var a := r.answers;
    if !c.started && !a.starts then (c, Failed(NoSession))
    else
      var c := c.(started := true);
      if r.uri in c.queues then
        if r.expr != "" && c.queues[r.uri] != r.expr then
          if !BuildsOptions(r.expr, a) then (c, Failed(BadExpression))
          else if !a.configures then (c, Failed(NotConfigured))
          else (c.(queues := c.queues[r.uri := r.expr]), Handle)
        else (c, Handle)
      else if !BuildsOptions(r.expr, a) then (c, Failed(BadExpression))
      else if !a.opens then (c, Failed(NotOpened))
      else (c.(queues := c.queues[r.uri := r.expr]), Handle)
  }

  function After(rs: seq<Request>): Cache {
    if rs == [] then EMPTY else Serve(After(rs[..|rs| - 1]), rs[|rs| - 1]).0
  }

  function ReplyTo(rs: seq<Request>, i: nat): Reply
    requires i < |rs|
  {
    Serve(After(rs[..i]), rs[i]).1
  }

  predicate Accepted(rs: seq<Request>, i: nat, u: Uri)
    requires i < |rs|
  {
    rs[i].uri == u && ReplyTo(rs, i) == Handle
  }

  /** A handle as the broker has it: its queue flags, and the filter in force ("" for none). */
  datatype OpenHandle = OpenHandle(read: bool, write: bool, filter: string)

  /** The broker, as far as one session sees it. */
  class Broker {
    var handles: map<Uri, OpenHandle>
    var openings: seq<Uri>             // successful opens, in order
    var posted: seq<Uri>               // queues of accepted posts, in order

    constructor ()
      ensures handles == map[] && openings == [] && posted == []
    {
      handles, openings, posted := map[], [], [];
    }

    /** A second handle for a queue of the session is refused, whatever its flags (ALREADY_OPENED). */
    method OpenQueueSync(u: Uri, read: bool, write: bool, expr: string, willing: bool) returns (ok: bool)
      modifies this
      ensures ok == (willing && u !in old(handles))
      ensures handles == (if ok then old(handles)[u := OpenHandle(read, write, expr)] else old(handles))
      ensures openings == (if ok then old(openings) + [u] else old(openings)) && posted == old(posted)
    {
      ok := willing && u !in handles;
      if ok {
        handles, openings := handles[u := OpenHandle(read, write, expr)], openings + [u];
      }
    }

    method ConfigureQueueSync(u: Uri, expr: string, willing: bool) returns (ok: bool)
      modifies this
      ensures ok == (willing && u in old(handles))
      ensures handles == (if ok then old(handles)[u := old(handles)[u].(filter := expr)] else old(handles))
      ensures openings == old(openings) && posted == old(posted)
    {
      ok := willing && u in handles;
      if ok {
        handles := handles[u := handles[u].(filter := expr)];
      }
    }

    method Post(u: Uri, willing: bool) returns (ok: bool)
      modifies this
      ensures ok == (willing && u in old(handles) && old(handles)[u].write)
      ensures posted == (if ok then old(posted) + [u] else old(posted))
      ensures handles == old(handles) && openings == old(openings)
    {
      ok := willing && u in handles && handles[u].write;
      if ok {
        posted := posted + [u];
      }
    }

    /** The session ends; its handles are closed. */
    method Stop()
      modifies this
      ensures handles == map[] && openings == old(openings) && posted == old(posted)
    {
      handles := map[];
    }
  }

  datatype Publish = Published | RowRejected(column: string) | NoHandle(why: Failure) | NotPacked | NotPosted

  class Backend {
    var started: bool             // g_session != nullptr
    var hookRegistered: bool      // g_exit_hook_registered
    var queues: map<Uri, string>  // g_queues: the handle's subscriptionExpr
    const broker: Broker

    ghost predicate Valid()
      reads this, broker
    {
      && (started ==> hookRegistered)
      && (!started ==> queues == map[])
      && queues.Keys == broker.handles.Keys
      && (forall u :: u in queues ==> broker.handles[u] == OpenHandle(true, true, queues[u]))
      && (forall u :: u in queues <==> u in broker.openings)
      && (forall u :: multiset(broker.openings)[u] <= 1)
      && (forall u :: u in broker.posted ==> u in queues)
    }

    ghost function View(): Cache
      reads this
    {
      Cache(started, queues)
    }

    constructor ()
      ensures Valid() && View() == EMPTY && fresh(broker) && broker.openings == [] && broker.posted == []
    {
      started, hookRegistered, queues := false, false, map[];
      broker := new Broker();
    }

    method GetSession(a: Answers) returns (ok: bool)
      requires Valid()
      modifies this`started, this`hookRegistered
      ensures Valid() && ok == (old(started) || a.starts) && started == ok
    {
      if started {
        return true;
      }
      if !a.starts {
        return false;
      }
      started := true;
      if !hookRegistered {
        hookRegistered := true;
      }
      return true;
    }

    /** One handle per queue: looked up, reconfigured for a new non-empty expression, or opened. */
    method GetQueue(uri: Uri, expr: string, a: Answers) returns (r: Reply)
      requires Valid() && started
      modifies this`queues, broker
      ensures Valid() && broker.posted == old(broker.posted)
      ensures r == Handle <==>
              if uri in old(queues) then expr == "" || expr == old(queues[uri]) || (a.exprValid && a.configures)
              else (expr == "" || a.exprValid) && a.opens
      ensures queues == (if r == Handle && (expr != "" || uri !in old(queues)) then old(queues)[uri := expr] else old(queues))
      ensures (View(), r) == Serve(old(View()), Request(uri, expr, a))
      ensures broker.openings == old(broker.openings) + (if uri !in old(queues) && r == Handle then [uri] else [])
    {
      if uri in queues {
        if expr != "" && queues[uri] != expr {
          if !BuildsOptions(expr, a) {
            return Failed(BadExpression);
          }
          var ok := broker.ConfigureQueueSync(uri, expr, a.configures);
          if !ok {
            return Failed(NotConfigured);
          }
          queues := queues[uri := expr];
        }
        return Handle;
      }
      if !BuildsOptions(expr, a) {
        return Failed(BadExpression);
      }
      var ok := broker.OpenQueueSync(uri, true, true, expr, a.opens);
      if !ok {
        return Failed(NotOpened);
      }
      queues := queues[uri := expr];
      return Handle;
    }

    /** What every publish and every consume does first. */
    method Open(uri: Uri, expr: string, a: Answers) returns (r: Reply)
      requires Valid()
      modifies this, broker
      ensures Valid() && broker.posted == old(broker.posted)
      ensures r == Handle <==>
              && (old(started) || a.starts)
              && if uri in old(queues) then expr == "" || expr == old(queues[uri]) || (a.exprValid && a.configures)
                 else (expr == "" || a.exprValid) && a.opens
      ensures (View(), r) == Serve(old(View()), Request(uri, expr, a))
      ensures broker.openings == old(broker.openings) + (if uri !in old(queues) && r == Handle then [uri] else [])
    {
      var ok := GetSession(a);
      if !ok {
        return Failed(NoSession);
      }
      r := GetQueue(uri, expr, a);
    }

    /**
     bmq_publish_row. A refused row touches neither the session nor the broker; a failing handle
     posts nothing, and cannot happen for a queue this process has posted to before. The row is
     published exactly if no column is refused, the handle is there or can be opened, and
     packing and posting succeed.
     */
    method PublishRow(uri: Uri, cols: seq<RowSplit.Column>, attrColumns: RowSplit.Attributes,
                      a: Answers)
      returns (r: Publish, ghost row: RowSplit.Split)
      requires Valid()
      modifies this, broker
      ensures Valid()
      ensures var handle := (old(started) || a.starts) && (uri in old(queues) || a.opens);
              && (r.RowRejected? <==> RowSplit.AnyRefused(attrColumns, cols))
              && (r.NoHandle? <==> !r.RowRejected? && !handle)
              && (r.NotPacked? <==> !r.RowRejected? && handle && !a.packs)
              && (r.NotPosted? <==> !r.RowRejected? && handle && a.packs && !a.posts)
              && (r == Published <==> !r.RowRejected? && handle && a.packs && a.posts)
      ensures r.RowRejected? ==> View() == old(View()) && hookRegistered == old(hookRegistered)
                                 && broker.handles == old(broker.handles) && broker.openings == old(broker.openings)
      ensures r.RowRejected? ==> row == RowSplit.Rejected(r.column)
      ensures !r.RowRejected? ==> View() == Serve(old(View()), Request(uri, "", a)).0
      ensures r.NoHandle? ==> Serve(old(View()), Request(uri, "", a)).1 == Failed(r.why)
      ensures broker.posted == old(broker.posted) + (if r == Published then [uri] else [])
      ensures uri in old(broker.posted) ==> !r.NoHandle?
      ensures r == Published ==> uri in queues && row == RowSplit.Built(RowSplit.Payload(cols),
                                   RowSplit.Properties(attrColumns, cols))
    {
      var split := RowSplit.SplitRow(cols, attrColumns);
      row := split;
      if split.Rejected? {
        return RowRejected(split.column), row;
      }
      var h := Open(uri, "", a);
      if h.Failed? {
        return NoHandle(h.why), row;
      }
      if !a.packs {
        return NotPacked, row;
      }
      var ok := broker.Post(uri, a.posts);
      if !ok {
        return NotPosted, row;
      }
      return Published, row;
    }

    /** pg_blazingmq_exit_hook. */
    method ExitHook()
      requires Valid()
      modifies this`queues, this`started, broker
      ensures View() == EMPTY && broker.handles == map[]
    {
      queues := map[];
      if started {
        broker.Stop();
        started := false;
      }
    }
  }

  // ---- The cache against the history of requests ----

  /** Every request starts the session if none has before. */
  lemma {:induction false} StartedWhen(rs: seq<Request>)
    ensures After(rs).started <==> exists i :: 0 <= i < |rs| && rs[i].answers.starts
  {
    if rs != [] {
      var n := |rs| - 1;
      StartedWhen(rs[..n]);
      assert forall i :: 0 <= i < n ==> rs[..n][i] == rs[i];
      assert rs[n].answers.starts == rs[n].answers.starts;
    }
  }

  /** Some request among the first `n` was accepted for the queue. */
  ghost predicate AcceptedBefore(rs: seq<Request>, n: nat, u: Uri)
    requires n <= |rs|
  {
    exists i :: 0 <= i < n && Accepted(rs, i, u)
  }

  /**
   When a request gets its handle, from the answers met and the requests before it: the session has
   started, now or earlier, and the queue's handle is there with this filter, or none is asked for, or
   it can be reconfigured; or there is none yet and it can be opened. And why it fails otherwise.
   */
  lemma AcceptedWhen(rs: seq<Request>, n: nat)
    requires n < |rs|
    ensures var r, a := rs[n], rs[n].answers;
            var started := exists i :: 0 <= i <= n && rs[i].answers.starts;
            var open := AcceptedBefore(rs, n, r.uri);
            var kept := r.expr == "" || r.expr == LastFilter(rs[..n], r.uri);
            && (ReplyTo(rs, n) == Handle <==>
                  started && if open then kept || (a.exprValid && a.configures) else (r.expr == "" || a.exprValid) && a.opens)
            && (ReplyTo(rs, n) == Failed(NoSession) <==> !started)
            && (ReplyTo(rs, n) == Failed(BadExpression) <==> started && r.expr != "" && !a.exprValid && !(open && kept))
            && (ReplyTo(rs, n) == Failed(NotOpened) <==> started && !open && (r.expr == "" || a.exprValid) && !a.opens)
            && (ReplyTo(rs, n) == Failed(NotConfigured) <==> started && open && !kept && a.exprValid && !a.configures)
  {
    hide Serve;
    var u, front := rs[n].uri, rs[..n];
    CacheIsFold(front, u);
    StartedWhen(front);
    assert forall i :: 0 <= i < n ==> front[i] == rs[i];
    forall i | 0 <= i < n ensures Accepted(front, i, u) == Accepted(rs, i, u) {
      PrefixReply(rs, i, n);
    }
    hide After, LastFilter, Accepted;
    ReplyParts(After(front), rs[n]);
  }

  lemma ReplyParts(c: Cache, r: Request)
    ensures var reply, a := Serve(c, r).1, r.answers;
            var started, open := c.started || a.starts, r.uri in c.queues;
            var kept := r.expr == "" || (open && r.expr == c.queues[r.uri]);
            && (reply == Handle <==>
                  started && if open then kept || (a.exprValid && a.configures) else (r.expr == "" || a.exprValid) && a.opens)
            && (reply == Failed(NoSession) <==> !started)
            && (reply == Failed(BadExpression) <==> started && r.expr != "" && !a.exprValid && !(open && kept))
            && (reply == Failed(NotOpened) <==> started && !open && (r.expr == "" || a.exprValid) && !a.opens)
            && (reply == Failed(NotConfigured) <==> started && open && !kept && a.exprValid && !a.configures)
  {
  }

  /** The filter the broker should be using for `u`: the last accepted non-empty expression. */
  function LastFilter(rs: seq<Request>, u: Uri): string {
    if rs == [] then "" else
    var i := |rs| - 1;
    if Accepted(rs, i, u) && rs[i].expr != "" then rs[i].expr else LastFilter(rs[..i], u)
  }

  lemma PrefixReply(rs: seq<Request>, i: nat, n: nat)
    requires i < n <= |rs|
    ensures ReplyTo(rs[..n], i) == ReplyTo(rs, i) && rs[..n][i] == rs[i]
  {
    assert rs[..n][..i] == rs[..i];
  }

  /**
   After any requests with any failures, the cached queues are those with an accepted request,
   and each cached expression is the last accepted non-empty one for its queue.
   */
  lemma {:induction false} CacheIsFold(rs: seq<Request>, u: Uri)
    ensures u in After(rs).queues <==> exists i :: 0 <= i < |rs| && Accepted(rs, i, u)
    ensures u in After(rs).queues ==> After(rs).queues[u] == LastFilter(rs, u)
    ensures u !in After(rs).queues ==> LastFilter(rs, u) == ""
  {
    hide Serve;
    if rs != [] {
      var n := |rs| - 1;
      CacheIsFold(rs[..n], u);
      ServeStep(After(rs[..n]), rs[n], u);
      AcceptedPrefix(rs, u);
    }
  }

  /** What one request does to one queue's entry. */
  lemma ServeStep(c: Cache, r: Request, u: Uri)
    ensures var d := Serve(c, r).0; var hit := r.uri == u && Serve(c, r).1 == Handle;
            && (u in d.queues <==> u in c.queues || hit)
            && (u in d.queues ==>
                  d.queues[u] == if hit && r.expr != "" then r.expr else if u in c.queues then c.queues[u] else "")
  {
  }

  lemma AcceptedPrefix(rs: seq<Request>, u: Uri)
    requires rs != []
    ensures var n := |rs| - 1;
            (exists i :: 0 <= i < |rs| && Accepted(rs, i, u)) <==>
            (exists i :: 0 <= i < n && Accepted(rs[..n], i, u)) || Accepted(rs, n, u)
  {
    hide Serve;
    var n := |rs| - 1;
    forall i | 0 <= i < n ensures Accepted(rs[..n], i, u) == Accepted(rs, i, u) {
      PrefixReply(rs, i, n);
    }
  }

  /** Once a queue's handle is cached it stays, and a request without an expression always gets it. */
  lemma {:induction false} CachedForGood(rs: seq<Request>, i: nat, n: nat, u: Uri)
    requires i < n <= |rs| && Accepted(rs, i, u)
    ensures After(rs[..n]).started && u in After(rs[..n]).queues
    decreases n
  {
    assert rs[..n][..n - 1] == rs[..n - 1];
    if i + 1 < n {
      CachedForGood(rs, i, n - 1, u);
    }
  }

  /**
   A publish can fail for want of a session or a handle only before anything was accepted for
   its queue: so no earlier row of the statement, nor any earlier statement, has posted there,
   and retrying the statement repeats no post.
   */
  lemma OpenFailsOnlyFirst(rs: seq<Request>, n: nat)
    requires n < |rs| && rs[n].expr == "" && ReplyTo(rs, n).Failed?
    ensures forall i :: 0 <= i < n ==> !Accepted(rs, i, rs[n].uri)
  {
    forall i | 0 <= i < n ensures !Accepted(rs, i, rs[n].uri) {
      if Accepted(rs, i, rs[n].uri) {
        CachedForGood(rs, i, n, rs[n].uri);
      }
    }
  }
}

# pg_blazingmq: delivery, confirms, handles and handoff

A Dafny model of the client logic of `pg_blazingmq`: pulling messages and confirming them, the
subscriber worker, the cache of queue handles, the handoff from `bmq_subscribe` to its worker, the
split of a row into payload and properties, and the arithmetic of two benchmark scripts.

`dafny verify dfyconfig.toml` checks everything.

## How it fits together

| file | what it holds |
|---|---|
| `Wrappers.dfy` | `Option` |
| `Messages.dfy` | messages, and facts about lists of them without repetitions |
| `ClientMachine.dfy` | one process (pulling backend or worker) as a transition system, one step per point at which it can be killed |
| `Order.dfy` | what is left of message order when messages are passed over and confirms given up |
| `Consume.dfy` | `bmq_consume` as nested loops, proved to return a closed expression of its inputs and to be a run of `ClientMachine` |
| `Worker.dfy` | the worker's message loop, proved to be a run of the same transition system |
| `Flow.dfy` | a process together with the broker's window of unconfirmed messages: when a pull can stall |
| `Delivery.dfy` | any number of processes and a broker, in any interleaving with crashes |
| `Queues.dfy` | which queues can still deliver to a process, and whose messages its calls can return |
| `Calls.dfy` | what calls give back: the rows of calls that returned, and where every confirm came from |
| `CallRuns.dfy` | histories that reach the bounds of `Calls`, and a confirmed message that no caller gets |
| `Redelivery.dfy` | how often a message is pulled into a tuplestore, over all backends of a system |
| `HandleCache.dfy` | session and handle cache as a class beside the broker's own view, and `bmq_publish_row` through it |
| `Filters.dfy` | cache, link and broker together: when the rows of a call match its expression |
| `Handoff.dfy` | caller and worker around the shared segment, in every interleaving |
| `RowSplit.dfy` | one pass over a row, two outputs |
| `Selectivity.dfy`, `Sustained.dfy` | the benchmark cores |

The loops in `Consume` and `Worker` carry a ghost log of transition-system actions; their contracts
say that the log is a run of `ClientMachine` from the state before the call to the state after it.
So what is proved of all runs of `ClientMachine`, at every intermediate state, holds inside these
loops too. `Delivery` lets every process step by the same transition function.

A call's rows reach its caller only when it returns (SFRM_Materialize); the tuplestore of a call
that is killed or raises is lost. "Served" means put into a tuplestore, or callback committed;
"returned" means that the call came back with it.

Return codes, clock readings, the results of `nextEvent`, callback outcomes and the values of the
shutdown flag are inputs, arbitrary unless a contract says otherwise. Termination of the two loops
assumes that some clock reading lies past the deadline, respectively that the flag is some day set.

### What is assumed of the broker and its library

- A stored message is pushed to at most one open handle at a time.
- A handle is not pushed beyond its window of unconfirmed messages (1000 by default).
- Unconfirmed messages return to storage only when the process that has them ends.
- A successful `confirmMessages` empties the builder, a failed one leaves it as it was.
- A second open of a queue by the same session is refused.
- Whether a message passes a filter is decided when it arrives at the broker, under the filter in force
  then (README.md:65-72 of the repository).

### Where the code and its documentation differ

The model follows the code.

- README.md:43-50 and pg_blazingmq--0.5.sql:43-53 describe one flush at the end of a batched call, with
  every message of the call at risk until then; the code also flushes at 500 messages and when the
  builder is full, so at most 500 are (`ClientMachine.RedeliveryWindow`).
- pg_blazingmq.cpp:133-138 and pg_blazingmq--0.5.sql:38-41 call a different filter on an open queue an
  error; pg_blazingmq.cpp:221-231 reconfigures the handle.
- README.md:29-32 has ineligible types refused as attributes; line 260 of pg_blazingmq.cpp makes an
  explicitly listed eligible column refuse the row when it is NULL (`RowSplit.SplitRow`).
- The retry branch at pg_blazingmq.cpp:557-571 does not test the threshold, so after it the builder may
  hold one message with no flush due; the window results are for every threshold from 2 up.
- pg_blazingmq.cpp:763-766 tells the caller that a late worker "will keep trying"; a worker whose
  session or queue fails to open exits (lines 898-912), and the flag then stays 0 (`Handoff.Readiness`).
- The segment pinned at pg_blazingmq.cpp:719 is never unpinned, so it outlives both processes exactly if the
  caller got as far as pinning it, also when it is killed before it registers the worker, or when
  registering or starting the worker fails (`Handoff.PinnedForGood`).
- pg_blazingmq--0.5.sql:32-33 speaks of pulling from the queue named in the call; the events come from
  the session at pg_blazingmq.cpp:529, whatever queue they are for, and `queueId` is not looked at. A call
  is sure to keep to its own queue exactly if nothing else is queued already and no other open queue can deliver
  (`Queues.OwnQueueIff`).
- README.md:38-40 has a call that errors leave unconfirmed only what was not added yet, and README.md:46-50
  speaks of an at-least-once window for pulls. What was added is confirmed and, when the call errors or its
  backend is killed, in no one's hands (`CallRuns.ConfirmedUnreturned`; ARCHITECTURE.md:106-108 grants that
  pulls are not at-least-once). This happens exactly when a call ends so after a confirm of its own
  (`Calls.AllGivenBackIff`).
- bench/nats_selectivity.py:66-67 returns a negative count unchanged for the broad pattern, while
  nothing is published; the other two closed forms are right for every count.

## Model

| member | source | states |
|---|---|---|
| ClientMachine.RunInv | pg_blazingmq.cpp:538-608 | in every state of every run, under any add, flush, confirm and callback failures: each delivered message is in exactly one of served, passed over, in a callback, in the current event, queued; each served one in exactly one of confirmed, held in the builder, in hand, given up; in order while nothing was passed over or given up; at each loop head the builder holds fewer than the threshold plus the failed flushes of the statement |
| ClientMachine.RedeliveryWindow | pg_blazingmq.cpp:550-595 | from any point between two statements or callbacks, whatever failed before: while confirm calls succeed from there on, a kill at any later point finds the messages confirmed since then a prefix of those served since then and at most 500 (batched) or 1 (otherwise) of them unconfirmed, whatever max_messages is |
| ClientMachine.RedeliveryWindowTight | pg_blazingmq.cpp:572-588 | the batched bound is reached: threshold many messages served and none confirmed |
| ClientMachine.UnconfirmedCount | pg_blazingmq.cpp:555-608 | under any failures: served and unconfirmed messages are those given up with a WARNING and at most 1 more (immediate), or at most 500 more and one for each failed flush of the statement (batched) |
| Order.OrderKept | pg_blazingmq.cpp:536-608 | in every run, whatever is cut off, aborted or given up: effects happen in the order of delivery and confirms in the order of the effects |
| Order.SubIff | pg_blazingmq.cpp:536-608 | what "in the order of" means there: increasing positions at which the same messages stand |
| Flow.ConfirmedOnce | pg_blazingmq.cpp:555-608 | no process serves or confirms a message twice; confirmed, held, in hand and given up are different messages |
| Flow.OutstandingParts | pg_blazingmq.cpp:96-103 | what the broker still waits for from a process is exactly what it passed over, gave up, holds, or has not reached |
| Flow.NoStall | pg_blazingmq.cpp:572-588 | a batched pull is never stuck with a full window, nothing to read and no flush due while lost slots, threshold and failed flushes of the statement together fit into the window |
| Flow.StallIff | pg_blazingmq.cpp:572-588 | from any state between two statements, also with events still queued, a failure-free batched pull can stall on an open queue if and only if its lost slots plus the threshold exceed the window |
| Flow.StallAtDefaults | pg_blazingmq.cpp:96-103 | with window 1000 and threshold 500: it can stall if and only if more than 500 slots are lost |
| Flow.StallingRun | bench/README.md:92-103 | the stalling run; with nothing queued at its start it stops with exactly window minus lost messages returned, and without a flush before the end that is 1000 |
| Flow.StalledHolds | pg_blazingmq.cpp:572-588 | however it came about, a stalled pull holds, served and unconfirmed, exactly window minus lost messages of the queue |
| Flow.Accounting | pg_blazingmq.cpp:538-608 | over any number of calls or callbacks with good confirms: delivered is confirmed plus passed over plus still queued, and the broker waits for exactly the last two |
| Queues.StarvedIff | pg_blazingmq.cpp:535-538 | between two calls: no run whatsoever delivers a new message of an open queue if and only if passed-over and given-up messages fill its window; otherwise a run without failures does |
| Delivery.PushIsAllowed | pg_blazingmq.cpp:235-248 | a message pushed from storage is new to the process it goes to, so redelivery is always to another process |
| Delivery.NothingIsLost | pg_blazingmq.cpp:538-608 | for any backends, workers and publishers, and any crashes: every published message is stored, outstanding at one process or confirmed, exactly one of these; confirmed only after it entered a tuplestore or its callback committed |
| Delivery.DuplicateBound | pg_blazingmq.cpp:885-895 | committed callbacks exceed the distinct messages they were for by at most worker crashes plus failed confirms |
| Delivery.StopsAddNoDuplicates | pg_blazingmq.cpp:835-896 | without worker crashes and failed worker confirms no callback commits twice for a message, however many workers are stopped by SIGTERM and whatever becomes of backends |
| Delivery.DuplicateBoundTight | pg_blazingmq.cpp:885-893 | for every number of worker crashes and of failed confirms there is a history in which each of them costs one duplicate |
| Calls.ReturnedCount | pg_blazingmq.cpp:492-620 | in every history: the calls that returned hold a message at most once more than backends that have ended had given it up after returning it; not once more if it is stored again, was confirmed by a worker, or was confirmed by a call that did not return |
| Calls.DuplicateReturns | pg_blazingmq.cpp:492-620 | so the rows returned exceed the distinct messages among them by at most these losses |
| Calls.ReturnedOnce | pg_blazingmq.cpp:555-608 | while confirm calls of backends succeed no message is returned twice, whatever number of calls is killed or raises |
| CallRuns.ReturnedCountTight | pg_blazingmq.cpp:589-608 | for every n there is a history in which a message given up n times is returned n + 1 times |
| Calls.ConfirmsAccount | pg_blazingmq.cpp:552-620 | every confirmed message was confirmed by exactly one of: a call that returned and gave it back, a call that was killed or raised, a worker after its callback, a call in progress that has it in its tuplestore |
| Calls.AllGivenBackIff | pg_blazingmq.cpp:552-620 | nothing is confirmed by a call that does not give it back if and only if no call was killed or raised after a confirm of its own |
| CallRuns.ConfirmedUnreturned | ARCHITECTURE.md:103-108 | by a kill or by an exception: a message that is confirmed, stored nowhere, and was returned by no call and handled by no callback |
| Redelivery.DuplicateEntries | pg_blazingmq.cpp:524-608 | in every history, tuplestore entries (of calls that returned or not) exceed the distinct messages in them by at most what the backends that ended had given up plus, for each that ended inside a statement, 1 (immediate) or 500 and its failed flushes (batched) |
| Redelivery.EachEntryOnce | pg_blazingmq.cpp:524-608 | if no backend ended inside a statement or after giving up a confirm, no message is pulled into a tuplestore twice |
| Redelivery.EntriesPerKill | pg_blazingmq.cpp:572-588 | while no confirm fails, only kills inside a statement have messages pulled again, at most 500 each |
| Redelivery.EntriesPerKillTight | pg_blazingmq.cpp:572-588 | for every number of kills there is a history in which each has 500 messages pulled again |
| Consume.ConfirmOne | pg_blazingmq.cpp:555-596 | confirming one message is exactly: one confirm (immediate); an addition, with a flush at 500 messages and not before (batched); or, if the addition overflows, a flush and a second addition; one WARNING for each call that fails; what is confirmed and still held afterwards; a run of the transition system |
| Consume.WalkEvent | pg_blazingmq.cpp:537-597 | walking one event returns its messages up to the limit and leaves the rest of the event |
| Consume.BmqConsume | pg_blazingmq.cpp:485-608 | the call returns the first max_messages messages polled before the deadline; what it polled beyond them is passed over, and it polls no further once it has them; each wait is exactly the whole milliseconds left at its clock reading; it ends with max_messages or when the clock is less than 1 ms before the deadline; as many WARNINGs as confirm calls failed; invalid limits change nothing; the call is a run of the transition system |
| Consume.PollLimitOnClock | pg_blazingmq.cpp:520-530 | the polls allowed, on the clock: every reading before one is at least 1 ms before the deadline, the next is not |
| Consume.BatchRefinesImmediate | sql/03_consume.sql:35-48 | for the same clock and polled events both modes return the same messages, and a call whose confirms succeed has by its return confirmed exactly these, in this order, whatever failed in earlier calls |
| Consume.CallOfQueue | pg_blazingmq.cpp:524-553 | a call returns messages of its own queue only, when at its start nothing else was queued and no other open queue could deliver |
| Queues.OwnQueueIff | pg_blazingmq.cpp:524-553 | between two calls: no later call takes another queue's message, whatever happens, if and only if all that is queued is of this queue and the windows of all other open queues are filled with lost messages; otherwise calls without any failure return one |
| Queues.OwnQueueIffAlone | pg_blazingmq.cpp:506-529 | with nothing queued and a slot left on every open queue: if and only if no other queue is open |
| Consume.BookedAsReturned | pg_blazingmq.cpp:492-620 | the rows the call hands back are exactly what the books of the whole system record as returned by it |
| Worker.WalkEvent | pg_blazingmq.cpp:846-896 | the effects of an event are the committed callbacks in order; the flag is read after each message and the first raised one ends the walk |
| Worker.SubscriberLoop | pg_blazingmq.cpp:835-897 | the worker handles all of what it polls, except for the rest of the event in which it first reads the flag raised; its effects are the successful callbacks, its confirms those the broker accepted, failed callbacks stay unconfirmed; it reads the flag before each poll, after each message and once more, and leaves between messages |
| Worker.KeptAt | pg_blazingmq.cpp:862-893 | what the effects and confirms are of the handled messages: those at exactly the positions whose callback succeeded, and whose confirm was accepted, in order |
| HandleCache.Backend.GetSession | pg_blazingmq.cpp:161-182 | the session is started once; a failed start leaves nothing behind |
| HandleCache.Backend.GetQueue | pg_blazingmq.cpp:212-249 | a cached queue has its handle unless a new filter is asked for and refused; another queue has it exactly if the filter is valid and the open succeeds; the cache keeps agreeing with the broker: same queues, READ and WRITE, same filter, each queue opened successfully at most once |
| HandleCache.Backend.Open | pg_blazingmq.cpp:506-507 | session and handle together are one step of the request fold |
| HandleCache.Backend.PublishRow | pg_blazingmq.cpp:391-452 | a row is published exactly if no column is refused, the session runs or starts, the handle is cached or opens, and packing and posting succeed, and each other outcome has its own cause; a refused row touches neither session nor broker; a failing handle posts nothing and cannot occur for a queue posted to before |
| HandleCache.Backend.ExitHook | pg_blazingmq.cpp:148-159 | at process exit no handle is left on either side |
| HandleCache.AcceptedWhen | pg_blazingmq.cpp:161-249 | when the n-th request gets its handle, from the answers met and the history: the session has started by then, and either an earlier request was accepted and the expression is empty, the last filter, or valid and reconfigured, or none was and it is valid and the open succeeds; and which failure it is otherwise |
| HandleCache.CacheIsFold | pg_blazingmq.cpp:202-249 | after any requests with any failures, the cached queues are those with an accepted request, each with its last accepted non-empty expression |
| HandleCache.CachedForGood | pg_blazingmq.cpp:219-233 | an accepted queue stays cached |
| HandleCache.OpenFailsOnlyFirst | pg_blazingmq.cpp:427-452 | a publish fails for want of a session or handle only before anything was accepted for its queue, so its statement has posted nothing |
| Filters.FilterHoldsIff | pg_blazingmq.cpp:221-231 | after a call got its handle with a filter, it and later calls take only matching messages of the queue (until another filter is asked for) if and only if everything queued under an earlier filter or none, as far as it can still be delivered, matches; otherwise calls without any failure return a message that does not |
| Filters.TakenPassedOnArrival | README.md:65-72 | in every history of a backend, each message taken passed the filter in force when it arrived at the broker, whatever the call has asked for |
| Filters.InForceIsLast | pg_blazingmq.cpp:219-249 | that filter is the last accepted non-empty expression for the queue, none for a handle opened by a publish |
| Filters.BoundIff | README.md:65-72 | what is bound for a backend is exactly what arrived for it and passed the last accepted filter of its queue at that moment, if there was one |
| Filters.PublishThenFilter | README.md:65-72 | publishing before the filter is asked for: a run from the start in which the filtered call returns a message that does not match |
| Handoff.FieldRoundTrip | pg_blazingmq.cpp:699-714 | a string written into a 512-byte field is read back unchanged if and only if it holds no NUL |
| Handoff.SegmentSafety | pg_blazingmq.cpp:708-833 | in every interleaving, with either process killed anywhere, the segment is only used or detached by an attached process while it exists; the worker's attach succeeds even if the caller has left; nobody detaches twice |
| Handoff.DetachedOnce | pg_blazingmq.cpp:898-909 | each side that finishes normally or through the exception handler has detached exactly once |
| Handoff.PinnedForGood | pg_blazingmq.cpp:717-719 | the segment is pinned exactly from the pin on, exists from then on, and once caller and worker are gone (wherever they failed or were killed) exists if and only if it was pinned |
| Handoff.PinKept | pg_blazingmq.cpp:717-719 | however a schedule goes on, a pinned segment stays pinned and in existence |
| Handoff.CopyIsConfig | pg_blazingmq.cpp:810-817 | the worker runs with the caller's URI and expression |
| Handoff.Readiness | pg_blazingmq.cpp:755-767 | no WARNING only if the worker's queue was open; if the worker fails first, ready is 0 and a caller that returns warns; at most 250 sleeps |
| Handoff.CallerBlocksOnlyOnStart | pg_blazingmq.cpp:734-770 | until it is done the caller can be killed, and has a step of its own exactly if it is not waiting for the postmaster to start the registered worker; there both the start and its failure are possible and let it go on |
| Handoff.StepsTaken | pg_blazingmq.cpp:699-770 | in every schedule, from the steps taken: arguments of 512 characters or more, and only these, are refused; the caller raises the ERROR exactly after registering or starting failed (unless killed); it waits and returns a pid only for a worker that was started; the worker's queue is open exactly after get_queue succeeded, and the worker dies only when killed or without a database connection |
| Handoff.WorkerNeverBlocked | pg_blazingmq.cpp:802-912 | a started worker always has a step of its own until it is done, with either outcome of its connects and exceptions in its loop, and can be killed anywhere |
| Handoff.HandoffSucceeds | pg_blazingmq.cpp:699-833 | for any strings that fit there is a schedule in which the caller returns without a WARNING and the worker runs |
| Handoff.CallerFinishes | pg_blazingmq.cpp:734-770 | each of the caller's steps brings it closer to the end, and no step, failure or death of the worker sets it back |
| Handoff.AwaitReady | pg_blazingmq.cpp:755-767 | with the worker running at will between the reads, the loop sleeps exactly while the flag reads 0, at most 250 times; it warns exactly if no read found the flag set; without the WARNING the queue is open; the wait is a schedule of the two processes |
| RowSplit.SetMessageProperty | pg_blazingmq.cpp:256-286 | a property is set exactly for a non-NULL value of an eligible type |
| RowSplit.SplitRow | pg_blazingmq.cpp:359-423 | refused exactly if a list was given that names a live column which is NULL or of an ineligible type, reporting the first such column; otherwise both outputs |
| RowSplit.PropertiesExactly | pg_blazingmq.cpp:256-286 | a live, non-NULL bool, int2, int4, int8 or text-family column that is listed (or any, without a list) has its property in its place, of its own type and value, and no other column has one |
| RowSplit.PayloadExactly | pg_blazingmq.cpp:289-320 | every live column has its payload entry in its place, Null or with its value, and no dropped column has one |
| RowSplit.BuildAt | pg_blazingmq.cpp:396-423 | both outputs are complete and in column order |
| RowSplit.PayloadDetermines | pg_blazingmq.cpp:289-320 | two rows of one type have the same payload if and only if they have the same datum (its output text, for types without a case of their own), or both NULL, in every live column |
| RowSplit.PropertyMatchesPayload | pg_blazingmq.cpp:408-422 | every property repeats a payload entry of the same name and value |
| RowSplit.OmittedListsEligible | pg_blazingmq.cpp:359-422 | omitting the list builds what any list of just the eligible non-NULL columns builds; such a list is refused exactly if an unusable live column shares a name with a usable one |
| Selectivity.MatchesWhen | bench/nats_selectivity.py:59-62 | which indices each pattern selects |
| Selectivity.SubjectsRepeat | bench/nats_selectivity.py:54-62 | two indices have the same subject exactly if they agree modulo regions times symbols |
| Selectivity.ExpectedIsExact | bench/nats_selectivity.py:65-72 | for every count and all positive sizes the closed forms count the matching published subjects |
| Selectivity.RunPublisher | bench/nats_selectivity.py:75-82 | the publisher sends the sweep, and expected_matches is right for what it sent except for the broad pattern with a negative count |
| Sustained.Producer | bench/sustained_bench.py:97-122 | a paced producer is never ahead of its share of the rate at any test of the clock, and never more than one batch ahead |
| Sustained.Pace | bench/sustained_bench.py:116-121 | no sleep if the rows are within the share, otherwise exactly until they are, but for the oversleep |
| Sustained.TogetherWithin | bench/sustained_bench.py:116-121 | producers that keep to their shares keep to the rate limit together |
| Sustained.CountersBound | bench/sustained_bench.py:85-165 | counters are the sums of the processes' counts; consumed exceeds published by at most one row per producer plus rows posted and not yet counted |
| Sustained.CountersBoundTight | bench/sustained_bench.py:85-165 | the excess of one priming row per producer is reached |

## Left out

- The BlazingMQ, BDE and NTF libraries, sockets and wire formats; filters are plain strings that the broker may accept or refuse.
- MessagePack: the payload stays the ordered list of names and values.
- Postgres plumbing: memory contexts, error longjmps, SPI, catalog lookups, settings, worker registration internals, SQL NULL arguments with their defaults, the set-returning call context.
- `bmq_unsubscribe` and `validate_callback_fn`: one lookup each; a stop request appears as the shutdown flag being raised.
- Broadcast queues, byte limits on unconfirmed data, limits on property counts and names, queue capacity.
- Which stored message the broker pushes to whom, and when: any choice its rules allow.
- What the query around bmq_consume does with the rows it returned, for instance when its transaction aborts.
- Delivery.NothingIsLost: does not say that a stored message is eventually delivered, because that depends on the broker's scheduling.
- Sustained.CountersBound: assumes an initially empty queue, no redelivery and no publish errors, as the script's own balance does.
- Selectivity.MatchesWhen: subjects are token lists; joining tokens with dots and splitting them again is not modelled.
- The effect of repeated property names inside the library's property set; the calls made on it are modelled, in order.
- The other benchmark scripts, the link check, the install and upgrade scripts, the test broker script.

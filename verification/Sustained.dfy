/** bench/sustained_bench.py: the paced producer, and the counters shared by all processes. */
module Sustained {

  /** A paced producer's surroundings. Reading the clock and everything between readings takes time. */
  datatype Env = Env(
    elapses: nat -> real,   // time that passes before the n-th reading of perf_counter
    rows: nat -> nat,       // rows the n-th publish statement published
    oversleep: nat -> real  // how much longer than asked the n-th sleep lasts
  )

  ghost predicate Sane(env: Env, batchRows: nat) {
    && (forall n :: env.elapses(n) >= 0.0)
    && (forall n :: env.oversleep(n) >= 0.0)
    && (forall n :: env.rows(n) <= batchRows)
  }

  /** The time the first `n` readings take at least. */
  ghost function Elapsed(env: Env, n: nat): real {
    if n == 0 then 0.0 else Elapsed(env, n - 1) + env.elapses(n - 1)
  }

  lemma {:induction false} ElapsedGrows(env: Env, batchRows: nat, m: nat, n: nat)
    requires Sane(env, batchRows) && m <= n
    ensures Elapsed(env, m) <= Elapsed(env, n)
  {
    if m < n {
      ElapsedGrows(env, batchRows, m, n - 1);
    }
  }

  lemma NextReading(env: Env, batchRows: nat, n: nat)
    requires Sane(env, batchRows)
    ensures Elapsed(env, n + 1) == Elapsed(env, n) + env.elapses(n) && env.elapses(n) >= 0.0
    ensures env.rows(n) <= batchRows && env.oversleep(n) >= 0.0
  {
  }

  /** One producer's share of the rate limit. */
  function PerProducer(rateLimit: real, producers: nat): real
    requires producers > 0
  {
    rateLimit / producers as real
  }

  /** Rows a rate allows in a time. */
  function Allowed(rate: real, time: real): real {
    rate * time
  }

  lemma AllowedGrows(rate: real, a: real, b: real)
    requires rate > 0.0 && a <= b
    ensures Allowed(rate, a) <= Allowed(rate, b)
  {
    assert (b - a) * rate >= 0.0;
  }

  lemma AllowedStrict(rate: real, a: real, b: real)
    requires rate > 0.0 && a < b
    ensures Allowed(rate, a) < Allowed(rate, b)
  {
    assert (b - a) * rate > 0.0;
  }

  /** The rows are at most `ahead` more than the producer's share of a rate limit, if there is one. */
  ghost predicate Within(rateLimit: real, producers: nat, ahead: nat, rows: nat, time: real)
    requires producers > 0
  {
    rateLimit > 0.0 ==> rows as real <= Allowed(PerProducer(rateLimit, producers), time) + ahead as real
  }

  ghost predicate AllWithin(rateLimit: real, producers: nat, ahead: nat, points: seq<(nat, real)>)
    requires producers > 0
  {
    forall k :: 0 <= k < |points| ==> Within(rateLimit, producers, ahead, points[k].0, points[k].1)
  }

  lemma WithinSnoc(rateLimit: real, producers: nat, ahead: nat, points: seq<(nat, real)>, rows: nat, time: real)
    requires producers > 0 && AllWithin(rateLimit, producers, ahead, points)
    requires Within(rateLimit, producers, ahead, rows, time)
    ensures AllWithin(rateLimit, producers, ahead, points + [(rows, time)])
  {
    hide Within;
  }

  lemma WithinLater(rateLimit: real, producers: nat, rows: nat, time: real, later: real)
    requires producers > 0 && time <= later && Within(rateLimit, producers, 0, rows, time)
    ensures Within(rateLimit, producers, 0, rows, later)
  {
    if rateLimit > 0.0 {
      AllowedGrows(PerProducer(rateLimit, producers), time, later);
    }
  }

  lemma WithinBatch(rateLimit: real, producers: nat, rows: nat, n: nat, batchRows: nat, time: real)
    requires producers > 0 && n <= batchRows && Within(rateLimit, producers, 0, rows, time)
    ensures Within(rateLimit, producers, batchRows, rows + n, time)
    ensures rateLimit <= 0.0 ==> Within(rateLimit, producers, 0, rows + n, time)
  {
    hide Allowed, PerProducer;
  }

  /**
   Sleep until the published rows are no more than the rate allows, and no longer: not at all if they
   are no more already, and otherwise until, but for the oversleep, they are exactly that many.
   */
  method Pace(published: nat, rateLimit: real, producers: nat, elapsed: real, oversleep: real) returns (woken: real)
    requires rateLimit > 0.0 && producers > 0 && oversleep >= 0.0
    ensures woken >= elapsed && Within(rateLimit, producers, 0, published, woken)
    ensures published as real <= rateLimit / producers as real * elapsed ==> woken == elapsed
    ensures published as real > rateLimit / producers as real * elapsed ==>
              published as real == rateLimit / producers as real * (woken - oversleep)
  {
    var rate := rateLimit / producers as real;
    var target := published as real / rate;
    woken := elapsed;
    if target > elapsed {
      woken := elapsed + (target - elapsed) + oversleep;
    }
    assert Allowed(rate, target) == published as real;
    if target > elapsed {
      AllowedStrict(rate, elapsed, target);
    } else {
      AllowedGrows(rate, target, elapsed);
    }
    AllowedGrows(rate, target, woken);
  }

  function Last(samples: seq<(nat, real)>): nat {
    if samples == [] then 0 else samples[|samples| - 1].0
  }

  /** Each statement starts before the stop time with the rows published so far, and adds its own. */
  ghost predicate Chained(env: Env, stopTime: real, heads: seq<(nat, real)>, samples: seq<(nat, real)>) {
    && |samples| <= |heads|
    && (forall k :: 0 <= k < |heads| && k <= |samples| ==> heads[k].0 == Last(samples[..k]))
    && (forall k :: 0 <= k < |samples| ==> heads[k].1 < stopTime && samples[k] == (heads[k].0 + env.rows(k), heads[k].1))
  }

  lemma ChainedHead(env: Env, stopTime: real, heads: seq<(nat, real)>, samples: seq<(nat, real)>, h: (nat, real))
    requires Chained(env, stopTime, heads, samples) && |heads| == |samples| && h.0 == Last(samples)
    ensures Chained(env, stopTime, heads + [h], samples)
  {
    assert samples[..|samples|] == samples;
  }

  lemma ChainedSample(env: Env, stopTime: real, heads: seq<(nat, real)>, samples: seq<(nat, real)>, p: (nat, real))
    requires Chained(env, stopTime, heads, samples) && |heads| == |samples| + 1
    requires heads[|samples|].1 < stopTime && p == (heads[|samples|].0 + env.rows(|samples|), heads[|samples|].1)
    ensures Chained(env, stopTime, heads, samples + [p])
  {
    forall k | 0 <= k < |heads| ensures heads[k].0 == Last((samples + [p])[..k]) {
      assert (samples + [p])[..k] == samples[..k];
    }
  }

  lemma AtStart(env: Env, stopTime: real, rateLimit: real, producers: nat, batchRows: nat)
    requires producers > 0
    ensures Elapsed(env, 0) == 0.0 && Within(rateLimit, producers, 0, 0, 0.0)
    ensures Chained(env, stopTime, [], [])
    ensures AllWithin(rateLimit, producers, 0, []) && AllWithin(rateLimit, producers, batchRows, [])
  {
    assert Allowed(PerProducer(rateLimit, producers), 0.0) == 0.0;
  }

  /**
   The producer's loop; time counts from worker_start. `heads` are the published rows and the
   elapsed time at each test of the clock, `samples` right after each statement. A producer with a
   rate limit is not ahead of its share of the rate at any test, and never more than one batch.
   */
  method Producer(env: Env, batchRows: nat, rateLimit: real, producers: nat, stopTime: real, ghost horizon: nat)
    returns (published: nat, elapsed: real, heads: seq<(nat, real)>, samples: seq<(nat, real)>)
    requires Sane(env, batchRows) && producers > 0 && Elapsed(env, horizon) >= stopTime
    ensures |heads| == |samples| + 1 && heads[|samples|] == (published, elapsed) && elapsed >= stopTime
    ensures Chained(env, stopTime, heads, samples)
    ensures AllWithin(rateLimit, producers, 0, heads) && AllWithin(rateLimit, producers, batchRows, samples)
  {
    hide Within, AllWithin, Chained, Elapsed, Sane;
    AtStart(env, stopTime, rateLimit, producers, batchRows);
    published, elapsed, heads, samples := 0, 0.0, [], [];
    var readings := 0;
    while true
      invariant Elapsed(env, readings) <= elapsed && Within(rateLimit, producers, 0, published, elapsed)
      invariant Chained(env, stopTime, heads, samples) && |heads| == |samples| && published == Last(samples)
      invariant AllWithin(rateLimit, producers, 0, heads) && AllWithin(rateLimit, producers, batchRows, samples)
      decreases horizon - readings
    {
      NextReading(env, batchRows, readings);
      WithinLater(rateLimit, producers, published, elapsed, elapsed + env.elapses(readings));
      elapsed := elapsed + env.elapses(readings);
      readings := readings + 1;
      WithinSnoc(rateLimit, producers, 0, heads, published, elapsed);
      ChainedHead(env, stopTime, heads, samples, (published, elapsed));
      heads := heads + [(published, elapsed)];
      if elapsed >= stopTime {
        break;
      }
      if horizon < readings {
        ElapsedGrows(env, batchRows, horizon, readings);
      }
      NextReading(env, batchRows, |samples|);
      var n := env.rows(|samples|);
      WithinBatch(rateLimit, producers, published, n, batchRows, elapsed);
      WithinSnoc(rateLimit, producers, batchRows, samples, published + n, elapsed);
      ChainedSample(env, stopTime, heads, samples, (published + n, elapsed));
      published := published + n;
      samples := samples + [(published, elapsed)];
      if rateLimit > 0.0 {
        NextReading(env, batchRows, readings);
        elapsed := elapsed + env.elapses(readings);
        readings := readings + 1;
        NextReading(env, batchRows, |samples|);
        elapsed := Pace(published, rateLimit, producers, elapsed, env.oversleep(|samples|));
      }
    }
  }

  function Total(rows: seq<nat>): nat {
    if rows == [] then 0 else rows[0] + Total(rows[1..])
  }

  lemma {:induction false} SharesAdd(rows: seq<nat>, share: real, time: real, ahead: nat)
    requires forall k :: 0 <= k < |rows| ==> rows[k] as real <= share * time + ahead as real
    ensures Total(rows) as real <= |rows| as real * (share * time) + (|rows| * ahead) as real
  {
    if rows != [] {
      SharesAdd(rows[1..], share, time, ahead);
      assert (|rows| - 1) as real * (share * time) + share * time == |rows| as real * (share * time);
      assert (|rows| - 1) * ahead + ahead == |rows| * ahead;
    }
  }

  /**
   All producers together: if each is within its share, they keep to the rate limit of the whole run, and
   are at most one batch each ahead of it.
   */
  lemma TogetherWithin(rateLimit: real, rows: seq<nat>, time: real, ahead: nat)
    requires rateLimit > 0.0 && |rows| > 0
    requires forall k :: 0 <= k < |rows| ==> Within(rateLimit, |rows|, ahead, rows[k], time)
    ensures Total(rows) as real <= rateLimit * time + (|rows| * ahead) as real
  {
    var share := PerProducer(rateLimit, |rows|);
    SharesAdd(rows, share, time, ahead);
    assert |rows| as real * share == rateLimit;
    assert |rows| as real * (share * time) == |rows| as real * share * time;
  }

  // ---- The shared counters ----

  /** A producer or consumer process: rows it primed with, moved but not counted yet, and counted. */
  datatype Worker = Worker(primed: nat, pending: nat, counted: nat)

  /** Both groups, the rows the broker has accepted and handed out, and the two shared counters. */
  datatype Bench = Bench(
    producers: seq<Worker>,
    consumers: seq<Worker>,
    posted: nat,
    taken: nat,
    published: nat,
    consumed: nat
  )

  datatype Step =
    | PrimeProducer(i: nat, n: nat)   // bmq_publish_row with LIMIT 1, not counted
    | PrimeConsumer(i: nat, n: nat)   // bmq_consume of at most one message, not counted
    | Publish(i: nat, n: nat)         // a batch is posted
    | CountPublished(i: nat)          // with counter.get_lock()
    | Consume(i: nat, n: nat)
    | CountConsumed(i: nat)

  const IDLE := Worker(0, 0, 0)

  function Setup(producers: nat, consumers: nat): Bench {
    Bench(seq(producers, _ => IDLE), seq(consumers, _ => IDLE), 0, 0, 0, 0)
  }

  /** Each process primes once, before anything else; a consumer gets only messages that are there. */
  predicate Enabled(b: Bench, s: Step) {
    match s
    case PrimeProducer(i, n) => i < |b.producers| && b.producers[i] == IDLE && n <= 1
    case PrimeConsumer(i, n) => i < |b.consumers| && b.consumers[i] == IDLE && n <= 1 && b.taken + n <= b.posted
    case Publish(i, n) => i < |b.producers| && b.producers[i].pending == 0
    case CountPublished(i) => i < |b.producers|
    case Consume(i, n) => i < |b.consumers| && b.consumers[i].pending == 0 && b.taken + n <= b.posted
    case CountConsumed(i) => i < |b.consumers|
  }

  function Counted(w: Worker): Worker {
    Worker(w.primed, 0, w.counted + w.pending)
  }

  function Exec(b: Bench, s: Step): Bench
    requires Enabled(b, s)
  {
    match s
    case PrimeProducer(i, n) => b.(producers := b.producers[i := Worker(n, 0, 0)], posted := b.posted + n)
    case PrimeConsumer(i, n) => b.(consumers := b.consumers[i := Worker(n, 0, 0)], taken := b.taken + n)
    case Publish(i, n) => b.(producers := b.producers[i := b.producers[i].(pending := n)], posted := b.posted + n)
    case CountPublished(i) =>
      b.(producers := b.producers[i := Counted(b.producers[i])], published := b.published + b.producers[i].pending)
    case Consume(i, n) => b.(consumers := b.consumers[i := b.consumers[i].(pending := n)], taken := b.taken + n)
    case CountConsumed(i) =>
      b.(consumers := b.consumers[i := Counted(b.consumers[i])], consumed := b.consumed + b.consumers[i].pending)
  }

  predicate Valid(b: Bench, steps: seq<Step>)
    decreases |steps|, 0
  {
    steps == [] ||
    (Valid(b, steps[..|steps| - 1]) && Enabled(Run(b, steps[..|steps| - 1]), steps[|steps| - 1]))
  }

  function Run(b: Bench, steps: seq<Step>): Bench
    requires Valid(b, steps)
    decreases |steps|, 1
  {
    if steps == [] then b else Exec(Run(b, steps[..|steps| - 1]), steps[|steps| - 1])
  }

  /** Component-wise totals of a group. */
  function Sum(ws: seq<Worker>): Worker {
    if ws == [] then IDLE
    else
      var t := Sum(ws[1..]);
      Worker(ws[0].primed + t.primed, ws[0].pending + t.pending, ws[0].counted + t.counted)
  }

  lemma {:induction false} SumUpdate(ws: seq<Worker>, i: nat, w: Worker)
    requires i < |ws|
    ensures var s, t := Sum(ws), Sum(ws[i := w]);
            && t.primed == s.primed - ws[i].primed + w.primed
            && t.pending == s.pending - ws[i].pending + w.pending
            && t.counted == s.counted - ws[i].counted + w.counted
  {
    if i == 0 {
      assert ws[0 := w][1..] == ws[1..];
    } else {
      assert ws[i := w][1..] == ws[1..][i - 1 := w];
      SumUpdate(ws[1..], i - 1, w);
    }
  }

  lemma {:induction false} SumIdle(n: nat)
    ensures Sum(seq(n, _ => IDLE)) == IDLE
  {
    if n > 0 {
      assert seq(n, _ => IDLE)[1..] == seq(n - 1, _ => IDLE);
      SumIdle(n - 1);
    }
  }

  ghost predicate Balanced(b: Bench) {
    var p, c := Sum(b.producers), Sum(b.consumers);
    && b.posted == p.primed + p.pending + p.counted && b.published == p.counted
    && b.taken == c.primed + c.pending + c.counted && b.consumed == c.counted
    && b.taken <= b.posted
    && (forall i :: 0 <= i < |b.producers| ==> b.producers[i].primed <= 1)
  }

  lemma {:induction false} PrimedOnce(ws: seq<Worker>)
    requires forall i :: 0 <= i < |ws| ==> ws[i].primed <= 1
    ensures Sum(ws).primed <= |ws|
  {
    if ws != [] {
      PrimedOnce(ws[1..]);
    }
  }

  lemma StepBalanced(b: Bench, s: Step)
    requires Balanced(b) && Enabled(b, s)
    ensures Balanced(Exec(b, s))
  {
    if s.PrimeProducer? || s.Publish? || s.CountPublished? {
      SumUpdate(b.producers, s.i, Exec(b, s).producers[s.i]);
    } else {
      SumUpdate(b.consumers, s.i, Exec(b, s).consumers[s.i]);
    }
  }

  /**
   In every interleaving the shared counters are the sums of the processes' own counts, and the
   rows counted as consumed exceed those counted as published by at most one priming row per
   producer and the rows posted but not counted yet: with all producers joined, by at most one
   per producer.
   */
  lemma {:induction false} CountersBound(producers: nat, consumers: nat, steps: seq<Step>)
    requires Valid(Setup(producers, consumers), steps)
    ensures var b := Run(Setup(producers, consumers), steps);
            && b.published == Sum(b.producers).counted && b.consumed == Sum(b.consumers).counted
            && b.consumed <= b.published + producers + Sum(b.producers).pending
  {
    RunBalanced(producers, consumers, steps);
    PrimedOnce(Run(Setup(producers, consumers), steps).producers);
  }

  lemma {:induction false} RunBalanced(producers: nat, consumers: nat, steps: seq<Step>)
    requires Valid(Setup(producers, consumers), steps)
    ensures var b := Run(Setup(producers, consumers), steps); Balanced(b) && |b.producers| == producers
  {
    if steps == [] {
      SumIdle(producers);
      SumIdle(consumers);
    } else {
      var front := steps[..|steps| - 1];
      RunBalanced(producers, consumers, front);
      StepBalanced(Run(Setup(producers, consumers), front), steps[|steps| - 1]);
    }
  }

  lemma BenchSnoc(b: Bench, steps: seq<Step>, s: Step)
    requires Valid(b, steps) && Enabled(Run(b, steps), s)
    ensures Valid(b, steps + [s]) && Run(b, steps + [s]) == Exec(Run(b, steps), s)
  {
    assert (steps + [s])[..|steps + [s]| - 1] == steps;
  }

  lemma {:induction false} PrimeAll(producers: nat, consumers: nat, n: nat) returns (steps: seq<Step>)
    requires n <= producers
    ensures Valid(Setup(producers, consumers), steps)
    ensures var b := Run(Setup(producers, consumers), steps);
            && |b.producers| == producers && (forall i :: n <= i < producers ==> b.producers[i] == IDLE)
            && b.consumers == Setup(producers, consumers).consumers
            && b.posted == n && b.taken == 0 && b.published == 0 && b.consumed == 0
  {
    if n == 0 {
      steps := [];
    } else {
      steps := PrimeAll(producers, consumers, n - 1);
      BenchSnoc(Setup(producers, consumers), steps, PrimeProducer(n - 1, 1));
      steps := steps + [PrimeProducer(n - 1, 1)];
    }
  }

  /** The bound is reached: all priming rows can be consumed and counted before any row counts as published. */
  lemma CountersBoundTight(producers: nat, consumers: nat) returns (steps: seq<Step>)
    requires consumers > 0
    ensures Valid(Setup(producers, consumers), steps)
    ensures var b := Run(Setup(producers, consumers), steps); b.published == 0 && b.consumed == producers
  {
    var b := Setup(producers, consumers);
    steps := PrimeAll(producers, consumers, producers);
    BenchSnoc(b, steps, Consume(0, producers));
    steps := steps + [Consume(0, producers)];
    BenchSnoc(b, steps, CountConsumed(0));
    steps := steps + [CountConsumed(0)];
  }
}

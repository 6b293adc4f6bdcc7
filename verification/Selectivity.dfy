/** bench/nats_selectivity.py: the published subjects against the closed-form match counts. */
module Selectivity {
  import opened Wrappers

  /** The subjects' tokens; the script joins them with dots. */
  type Subject = seq<string>

  datatype Sweep = Sweep(regions: nat, symbols: nat)

  const BROAD: Subject := ["trades", ">"]
  const MEDIUM: Subject := ["trades", "r0", ">"]
  const NARROW: Subject := ["trades", "r0", "s0"]

  function Digit(d: nat): char
    requires d < 10
  {
    ['0', '1', '2', '3', '4', '5', '6', '7', '8', '9'][d]
  }

  function Decimal(n: nat): string {
    if n < 10 then [Digit(n)] else Decimal(n / 10) + [Digit(n % 10)]
  }

  function SubjectFor(w: Sweep, i: nat): Subject
    requires w.regions > 0 && w.symbols > 0
  {
    ["trades", "r" + Decimal(i % w.regions), "s" + Decimal(i / w.regions % w.symbols)]
  }

  /** Token-wise matching; a final ">" matches one or more tokens. */
  predicate Matches(pattern: Subject, subject: Subject) {
    if pattern == [] then subject == []
    else if subject == [] then false
    else if pattern == [">"] then true
    else pattern[0] == subject[0] && Matches(pattern[1..], subject[1..])
  }

  function CountMatches(pattern: Subject, subjects: seq<Subject>): nat {
    if subjects == [] then 0
    else CountMatches(pattern, subjects[..|subjects| - 1])
         + (if Matches(pattern, subjects[|subjects| - 1]) then 1 else 0)
  }

  /** len(range(0, count, step)). */
  function RangeLen(count: int, step: nat): nat
    requires step > 0
  {
    if count <= 0 then 0 else (count - 1) / step + 1
  }

  /** None is the ValueError. */
  function ExpectedMatches(w: Sweep, count: int, pattern: Subject): Option<int>
    requires w.regions > 0 && w.symbols > 0
  {
    if pattern == BROAD then Some(count)
    else if pattern == MEDIUM then Some(RangeLen(count, w.regions))
    else if pattern == NARROW then
      assert w.regions * w.symbols > 0 by { Positive(w.regions, w.symbols); }
      Some(RangeLen(count, w.regions * w.symbols))
    else None
  }

  lemma Positive(a: nat, b: nat)
    requires a > 0 && b > 0
    ensures a * b > 0
  {
  }

  /** run_publisher's loop. */
  method RunPublisher(w: Sweep, count: int) returns (sent: seq<Subject>)
    requires w.regions > 0 && w.symbols > 0
    ensures |sent| == if count < 0 then 0 else count
    ensures forall i :: 0 <= i < |sent| ==> sent[i] == SubjectFor(w, i)
    ensures forall p :: p in {BROAD, MEDIUM, NARROW} ==>
              (ExpectedMatches(w, count, p) == Some(CountMatches(p, sent)) <==> p != BROAD || count >= 0)
  {
    sent := [];
    var i := 0;
    while i < count
      invariant 0 <= i && (count >= 0 ==> i <= count) && (count < 0 ==> i == 0)
      invariant |sent| == i && forall j :: 0 <= j < i ==> sent[j] == SubjectFor(w, j)
    {
      sent := sent + [SubjectFor(w, i)];
      i := i + 1;
    }
    forall p | p in {BROAD, MEDIUM, NARROW}
      ensures ExpectedMatches(w, count, p) == Some(CountMatches(p, sent)) <==> p != BROAD || count >= 0
    {
      ExpectedIsExact(w, sent, p);
      if count < 0 {
        assert CountMatches(p, []) == 0;
      }
    }
  }

  lemma {:induction false} DecimalZero(n: nat)
    ensures Decimal(n) == "0" <==> n == 0
    ensures |Decimal(n)| >= 1
  {
    if n >= 10 {
      DecimalZero(n / 10);
    }
  }

  lemma Prefixed(c: char, s: string)
    ensures [c] + s == [c, '0'] <==> s == "0"
  {
    assert ([c] + s)[1..] == s && [c, '0'][1..] == "0";
  }

  lemma PairMatches(x: string, y: string)
    ensures Matches(["r0", ">"], [x, y]) <==> x == "r0"
    ensures Matches(["r0", "s0"], [x, y]) <==> x == "r0" && y == "s0"
  {
    assert ["r0", ">"][1..] == [">"] && ["r0", "s0"][1..] == ["s0"] && [x, y][1..] == [y];
    assert ["s0"][1..] == [] && [y][1..] == [];
    assert Matches(["s0"], [y]) <==> y == "s0";
  }

  /** Which subjects each pattern selects. */
  lemma MatchesWhen(w: Sweep, i: nat)
    requires w.regions > 0 && w.symbols > 0
    ensures Matches(BROAD, SubjectFor(w, i))
    ensures Matches(MEDIUM, SubjectFor(w, i)) <==> i % w.regions == 0
    ensures Matches(NARROW, SubjectFor(w, i)) <==> i % w.regions == 0 && i / w.regions % w.symbols == 0
  {
    var s := SubjectFor(w, i);
    var region, symbol := Decimal(i % w.regions), Decimal(i / w.regions % w.symbols);
    DecimalZero(i % w.regions);
    DecimalZero(i / w.regions % w.symbols);
    Prefixed('r', region);
    Prefixed('s', symbol);
    assert "r" == ['r'] && "s" == ['s'] && "r0" == ['r', '0'] && "s0" == ['s', '0'];
    PairMatches("r" + region, "s" + symbol);
    assert s[1..] == ["r" + region, "s" + symbol];
    assert BROAD[1..] == [">"] && MEDIUM[1..] == ["r0", ">"] && NARROW[1..] == ["r0", "s0"];
  }

  lemma MulMod(k: nat, n: nat)
    requires n > 0
    ensures k * n % n == 0 && k * n / n == k
  {
    DivisionUnique(k * n, n, k, 0);
  }

  lemma {:induction false} MulGap(x: nat, y: nat, n: nat)
    requires x < y
    ensures x * n + n <= y * n
  {
    assert y * n == (y - 1) * n + n;
    if x < y - 1 {
      MulGap(x, y - 1, n);
    }
  }

  lemma DivisionUnique(a: nat, n: nat, q: nat, r: nat)
    requires n > 0 && a == q * n + r && r < n
    ensures a / n == q && a % n == r
  {
    var q', r' := a / n, a % n;
    assert a == q' * n + r';
    if q < q' {
      MulGap(q, q', n);
    } else if q' < q {
      MulGap(q', q, n);
    }
  }

  lemma BothDivide(i: nat, r: nat, s: nat)
    requires r > 0 && s > 0
    ensures r * s > 0
    ensures i % r == 0 && i / r % s == 0 <==> i % (r * s) == 0
  {
    Positive(r, s);
    if i % r == 0 && i / r % s == 0 {
      var q := i / r;
      var t := q / s;
      assert i == q * r && q == t * s;
      assert i == t * (r * s);
      MulMod(t, r * s);
    }
    if i % (r * s) == 0 {
      var t := i / (r * s);
      assert i == t * (r * s) == (t * s) * r;
      MulMod(t * s, r);
      MulMod(t, s);
    }
  }

  lemma RangeLenStep(count: nat, step: nat)
    requires step > 0
    ensures RangeLen(count + 1, step) == RangeLen(count, step) + (if count % step == 0 then 1 else 0)
  {
    if count > 0 {
      var q, r := (count - 1) / step, (count - 1) % step;
      NextDivision(count - 1, step, q, r);
    } else {
      DivisionUnique(0, step, 0, 0);
    }
  }

  lemma NextDivision(a: nat, n: nat, q: nat, r: nat)
    requires n > 0 && q == a / n && r == a % n
    ensures (a + 1) / n == (if r + 1 < n then q else q + 1)
    ensures (a + 1) % n == 0 <==> r + 1 == n
  {
    assert a == q * n + r;
    if r + 1 < n {
      DivisionUnique(a + 1, n, q, r + 1);
    } else {
      assert (q + 1) * n == q * n + n;
      DivisionUnique(a + 1, n, q + 1, 0);
    }
  }

  /** For every sweep and every count the closed forms count the matching subjects. */
  lemma {:induction false} ExpectedIsExact(w: Sweep, sent: seq<Subject>, p: Subject)
    requires w.regions > 0 && w.symbols > 0 && p in {BROAD, MEDIUM, NARROW}
    requires forall i :: 0 <= i < |sent| ==> sent[i] == SubjectFor(w, i)
    ensures ExpectedMatches(w, |sent|, p) == Some(CountMatches(p, sent))
  {
    hide Matches, Decimal;
    if sent != [] {
      var n := |sent| - 1;
      ExpectedIsExact(w, sent[..n], p);
      MatchesWhen(w, n);
      BothDivide(n, w.regions, w.symbols);
      RangeLenStep(n, w.regions);
      RangeLenStep(n, w.regions * w.symbols);
    }
  }

  // ---- Numbers and subjects ----

  /** The number a string of decimal digits stands for. */
  function Number(s: string): int {
    if s == "" then 0 else 10 * Number(s[..|s| - 1]) + (s[|s| - 1] as int - '0' as int)
  }

  /** Decimal writes a number in decimal digits, without leading zeros. */
  lemma {:induction false} DecimalIsDecimal(n: nat)
    ensures Number(Decimal(n)) == n
    ensures |Decimal(n)| > 0 && forall k :: 0 <= k < |Decimal(n)| ==> '0' <= Decimal(n)[k] <= '9'
    ensures Decimal(n)[0] == '0' ==> n == 0
  {
    if n < 10 {
      assert Decimal(n)[..0] == "";
    } else {
      DecimalIsDecimal(n / 10);
      assert Decimal(n)[..|Decimal(n)| - 1] == Decimal(n / 10);
    }
  }

  lemma DecimalInjective(m: nat, n: nat)
    ensures Decimal(m) == Decimal(n) <==> m == n
  {
    DecimalIsDecimal(m);
    DecimalIsDecimal(n);
  }

  lemma PrefixedSame(c: char, s: string, t: string)
    ensures [c] + s == [c] + t <==> s == t
  {
    assert ([c] + s)[1..] == s && ([c] + t)[1..] == t;
  }

  lemma SubjectParts(w: Sweep, i: nat, j: nat)
    requires w.regions > 0 && w.symbols > 0
    ensures SubjectFor(w, i) == SubjectFor(w, j) <==>
            i % w.regions == j % w.regions && i / w.regions % w.symbols == j / w.regions % w.symbols
  {
    DecimalInjective(i % w.regions, j % w.regions);
    DecimalInjective(i / w.regions % w.symbols, j / w.regions % w.symbols);
    hide Decimal;
    var r1, r2 := Decimal(i % w.regions), Decimal(j % w.regions);
    var s1, s2 := Decimal(i / w.regions % w.symbols), Decimal(j / w.regions % w.symbols);
    PrefixedSame('r', r1, r2);
    PrefixedSame('s', s1, s2);
    assert "r" == ['r'] && "s" == ['s'];
    assert SubjectFor(w, i) == ["trades", "r" + r1, "s" + s1] && SubjectFor(w, j) == ["trades", "r" + r2, "s" + s2];
    assert SubjectFor(w, i)[1] == "r" + r1 && SubjectFor(w, i)[2] == "s" + s1;
    assert SubjectFor(w, j)[1] == "r" + r2 && SubjectFor(w, j)[2] == "s" + s2;
  }

  /** The remainder of the period, from its two digits. */
  lemma MixedDigits(i: nat, r: nat, s: nat)
    requires r > 0 && s > 0
    ensures r * s > 0 && i % (r * s) == (i / r % s) * r + i % r
  {
    Positive(r, s);
    var a, q := i % r, i / r;
    var b, p := q % s, q / s;
    assert i == q * r + a && q == p * s + b;
    assert q * r == p * s * r + b * r;
    assert p * s * r == p * (r * s);
    MulGap(b, s, r);
    assert s * r == r * s;
    DivisionUnique(i, r * s, p, b * r + a);
  }

  /** The sweep visits every pair of region and symbol once in each period, and no two of them share a subject. */
  lemma SubjectsRepeat(w: Sweep, i: nat, j: nat)
    requires w.regions > 0 && w.symbols > 0
    ensures w.regions * w.symbols > 0
    ensures SubjectFor(w, i) == SubjectFor(w, j) <==> i % (w.regions * w.symbols) == j % (w.regions * w.symbols)
  {
    SubjectParts(w, i, j);
    MixedDigits(i, w.regions, w.symbols);
    MixedDigits(j, w.regions, w.symbols);
    var r := w.regions;
    var a, b := i % r, j % r;
    var x, y := i / r % w.symbols, j / r % w.symbols;
    hide SubjectFor;
    if x * r + a == y * r + b {
      DivisionUnique(x * r + a, r, x, a);
      DivisionUnique(x * r + a, r, y, b);
    }
  }
}

/** What remains of the order of messages when some are passed over and some confirms are given up. */
module Order {
  import opened Messages
  import opened ClientMachine

  /** `a` is `b` with some elements left out. */
  predicate Sub(a: seq<Message>, b: seq<Message>)
    decreases |b|
  {
    if b == [] then a == []
    else
      || Sub(a, b[..|b| - 1])
      || (a != [] && a[|a| - 1] == b[|b| - 1] && Sub(a[..|a| - 1], b[..|b| - 1]))
  }

  lemma SubSnoc(a: seq<Message>, b: seq<Message>, m: Message)
    requires Sub(a, b)
    ensures Sub(a, b + [m]) && Sub(a + [m], b + [m])
  {
    assert (a + [m])[..|a + [m]| - 1] == a;
    assert (b + [m])[..|b + [m]| - 1] == b;
  }

  lemma {:induction false} SubAppend(a: seq<Message>, b: seq<Message>, x: seq<Message>)
    requires Sub(a, b)
    ensures Sub(a, b + x) && Sub(a + x, b + x)
    decreases |x|
  {
    if x == [] {
      assert a + x == a && b + x == b;
    } else {
      var front, m := x[..|x| - 1], x[|x| - 1];
      SubAppend(a, b, front);
      SubSnoc(a, b + front, m);
      SubSnoc(a + front, b + front, m);
      assert a + x == a + front + [m] && b + x == b + front + [m];
    }
  }

  lemma {:induction false} SubTrans(a: seq<Message>, b: seq<Message>, c: seq<Message>)
    requires Sub(a, b) && Sub(b, c)
    ensures Sub(a, c)
    decreases |c|, |b|
  {
    if c != [] {
      var front := c[..|c| - 1];
      if Sub(b, front) {
        SubTrans(a, b, front);
      } else if Sub(a, b[..|b| - 1]) {
        SubTrans(a, b[..|b| - 1], front);
      } else {
        SubTrans(a[..|a| - 1], b[..|b| - 1], front);
      }
    }
  }

  lemma SubSelf(a: seq<Message>)
    ensures Sub(a, a)
  {
    SubAppend([], [], a);
    assert [] + a == a;
  }

  /** Increasing positions of `b` at which the elements of `a` stand. */
  ghost predicate Picks(a: seq<Message>, b: seq<Message>, at: seq<nat>) {
    && |at| == |a| && (forall i :: 0 <= i < |at| ==> at[i] < |b| && b[at[i]] == a[i])
    && (forall i, j :: 0 <= i < j < |at| ==> at[i] < at[j])
  }

  lemma {:induction false} SubPicks(a: seq<Message>, b: seq<Message>) returns (at: seq<nat>)
    requires Sub(a, b)
    ensures Picks(a, b, at)
    decreases |b|
  {
    if b == [] {
      at := [];
    } else if Sub(a, b[..|b| - 1]) {
      at := SubPicks(a, b[..|b| - 1]);
    } else {
      at := SubPicks(a[..|a| - 1], b[..|b| - 1]);
      at := at + [|b| - 1];
    }
  }

  lemma {:induction false} PicksSub(a: seq<Message>, b: seq<Message>, at: seq<nat>)
    requires Picks(a, b, at)
    ensures Sub(a, b)
    decreases |b|
  {
    if b != [] {
      var front := b[..|b| - 1];
      if a == [] {
        PicksSub(a, front, at);
      } else if at[|at| - 1] == |b| - 1 {
        PicksSub(a[..|a| - 1], front, at[..|at| - 1]);
      } else {
        PicksSub(a, front, at);
      }
    }
  }

  /** Which is what leaving elements out means. */
  lemma SubIff(a: seq<Message>, b: seq<Message>)
    ensures Sub(a, b) <==> exists at :: Picks(a, b, at)
  {
    if Sub(a, b) {
      var at := SubPicks(a, b);
    }
    if at :| Picks(a, b, at) {
      PicksSub(a, b, at);
    }
  }

  /** Leaving out a part in the middle. */
  lemma SubDrop(x: seq<Message>, y: seq<Message>, z: seq<Message>, b: seq<Message>)
    requires Sub(x + y + z, b)
    ensures Sub(x + z, b)
  {
    SubSelf(x);
    SubAppend(x, x, y);
    SubAppend(x, x + y, z);
    SubTrans(x + z, x + y + z, b);
  }

  /** Everything delivered that had its effect or still may have it, in the order of delivery. */
  function Line(c: Client): seq<Message> {
    c.served + (Callback(c.pc) + c.current) + Flat(c.arrived)
  }

  /** Everything served whose confirm is not given up, in the order of the effects. */
  function Unsettled(c: Client): seq<Message> {
    c.confirmed + (c.held + Hand(c.pc))
  }

  ghost predicate Ordered(c: Client) {
    Sub(Line(c), c.delivered) && Sub(Unsettled(c), c.served)
  }

  lemma DropsFromLine(t: nat, c: Client, a: Action)
    requires Shape(c) && Enabled(c, a) && (a.Abort? || a.End? || a.Raise?)
    ensures Exec(t, c, a).delivered == c.delivered
    ensures Line(Exec(t, c, a)) == if a.Abort? then c.served + c.current + Flat(c.arrived) else c.served + Flat(c.arrived)
  {
    hide Flat;
  }

  lemma MovesInLine(t: nat, c: Client, a: Action)
    requires Shape(c) && Enabled(c, a) && (a.Take? || a.Commit?)
    ensures Exec(t, c, a).delivered == c.delivered && Line(Exec(t, c, a)) == Line(c)
  {
    hide Flat;
    var m := if a.Take? then c.current[0] else c.pc.m;
    var rest := if a.Take? then c.current[1..] else c.current;
    assert a.Take? ==> c.current == [m] + rest;
    Regroup(c.served, m, rest, Flat(c.arrived));
  }

  lemma Regroup(a: seq<Message>, m: Message, b: seq<Message>, z: seq<Message>)
    ensures a + ([m] + b) + z == a + ([] + ([m] + b)) + z
    ensures a + ([m] + b) + z == a + [m] + ([] + b) + z
  {
  }

  lemma KeepsLine(t: nat, c: Client, a: Action)
    requires Shape(c) && Enabled(c, a)
    requires !a.Arrive? && !a.Read? && !a.Take? && !a.Commit? && !a.Abort? && !a.End? && !a.Raise?
    ensures var d := Exec(t, c, a);
            && d.delivered == c.delivered && d.served == c.served && d.current == c.current && d.arrived == c.arrived
            && Callback(d.pc) == Callback(c.pc)
  {
  }

  /** A step keeps the line of messages, or takes out the one in a callback or the rest of an event. */
  lemma LineStep(t: nat, c: Client, a: Action)
    requires Shape(c) && Enabled(c, a) && !a.Arrive? && !a.Read?
    ensures Exec(t, c, a).delivered == c.delivered
    ensures if a.Abort? then Line(Exec(t, c, a)) == c.served + c.current + Flat(c.arrived)
            else if a.End? || a.Raise? then Line(Exec(t, c, a)) == c.served + Flat(c.arrived)
            else Line(Exec(t, c, a)) == Line(c)
  {
    hide Exec, Enabled, Shape, Callback, Flat;
    if a.Abort? || a.End? || a.Raise? {
      DropsFromLine(t, c, a);
    } else if a.Take? || a.Commit? {
      MovesInLine(t, c, a);
    } else {
      KeepsLine(t, c, a);
    }
  }

  lemma ReceiveLine(t: nat, c: Client, a: Action)
    requires Enabled(c, a) && (a.Arrive? || a.Read?)
    ensures var e := if a.Arrive? then a.event else [];
            Line(Exec(t, c, a)) == Line(c) + e && Exec(t, c, a).delivered == c.delivered + e
  {
    hide Callback;
    if a.Arrive? {
      FlatAppend(c.arrived, a.event);
    } else {
      FlatHead(c.arrived);
      hide Flat;
    }
  }

  lemma StepLine(t: nat, c: Client, a: Action)
    requires Shape(c) && Enabled(c, a) && Sub(Line(c), c.delivered)
    ensures Sub(Line(Exec(t, c, a)), Exec(t, c, a).delivered)
  {
    hide Sub, Exec, Enabled, Shape, Callback, Flat;
    if a.Arrive? || a.Read? {
      ReceiveLine(t, c, a);
      SubAppend(Line(c), c.delivered, if a.Arrive? then a.event else []);
    } else {
      LineStep(t, c, a);
      if a.Abort? {
        assert Line(c) == c.served + Callback(c.pc) + (c.current + Flat(c.arrived));
        SubDrop(c.served, Callback(c.pc), c.current + Flat(c.arrived), c.delivered);
        assert c.served + (c.current + Flat(c.arrived)) == c.served + c.current + Flat(c.arrived);
      } else if a.End? || a.Raise? {
        SubDrop(c.served, Callback(c.pc) + c.current, Flat(c.arrived), c.delivered);
      }
    }
  }

  /** What enters the tuplestore or has its callback committed in a step. */
  function NewlyServed(c: Client, a: Action): seq<Message>
    requires Enabled(c, a)
  {
    if a.Commit? then [c.pc.m] else if a.Take? && !c.mode.Subscriber? then [c.current[0]] else []
  }

  lemma ServeStep(t: nat, c: Client, a: Action)
    requires Shape(c) && Enabled(c, a) && (a.Commit? || a.Take?)
    ensures var d := Exec(t, c, a);
            && d.served == c.served + NewlyServed(c, a) && d.givenUp == c.givenUp
            && Unsettled(d) == Unsettled(c) + NewlyServed(c, a)
  {
  }

  lemma ReleaseStep(t: nat, c: Client, a: Action)
    requires Shape(c) && Enabled(c, a) && (a.Raise? || a.Flush? || a.Retry? || a.Confirm?)
    ensures var d := Exec(t, c, a);
            && d.served == c.served
            && (d.givenUp == c.givenUp ==> Unsettled(d) == Unsettled(c))
            && (d.givenUp != c.givenUp ==> Unsettled(d) == c.confirmed || Unsettled(d) == c.confirmed + c.held)
  {
  }

  lemma OtherStep(t: nat, c: Client, a: Action)
    requires Shape(c) && Enabled(c, a)
    requires !a.Commit? && !a.Take? && !a.Raise? && !a.Flush? && !a.Retry? && !a.Confirm?
    ensures var d := Exec(t, c, a); d.served == c.served && d.givenUp == c.givenUp && Unsettled(d) == Unsettled(c)
  {
  }

  /** The same for the confirms: a step leaves out what it gives up. */
  lemma UnsettledStep(t: nat, c: Client, a: Action)
    requires Shape(c) && Enabled(c, a)
    ensures var d := Exec(t, c, a);
            && d.served == c.served + NewlyServed(c, a)
            && (if d.givenUp == c.givenUp then Unsettled(d) == Unsettled(c) + NewlyServed(c, a)
                else d.served == c.served && (Unsettled(d) == c.confirmed || Unsettled(d) == c.confirmed + c.held))
  {
    hide Exec, Enabled, Shape, Unsettled;
    if a.Commit? || a.Take? {
      ServeStep(t, c, a);
    } else if a.Raise? || a.Flush? || a.Retry? || a.Confirm? {
      ReleaseStep(t, c, a);
    } else {
      OtherStep(t, c, a);
    }
  }

  lemma StepUnsettled(t: nat, c: Client, a: Action)
    requires Shape(c) && Enabled(c, a) && Sub(Unsettled(c), c.served)
    ensures Sub(Unsettled(Exec(t, c, a)), Exec(t, c, a).served)
  {
    hide Sub, Exec, Enabled, Shape, Hand;
    UnsettledStep(t, c, a);
    var d := Exec(t, c, a);
    if d.givenUp == c.givenUp {
      SubAppend(Unsettled(c), c.served, NewlyServed(c, a));
    } else {
      assert d.served == c.served;
      assert Unsettled(c) == c.confirmed + (c.held + Hand(c.pc)) + [];
      SubDrop(c.confirmed, c.held + Hand(c.pc), [], c.served);
      assert c.confirmed + [] == c.confirmed;
      assert Unsettled(c) == c.confirmed + c.held + Hand(c.pc) + [];
      SubDrop(c.confirmed + c.held, Hand(c.pc), [], c.served);
      assert c.confirmed + c.held + [] == c.confirmed + c.held;
    }
  }

  lemma {:induction false} RunOrdered(t: nat, c0: Client, acts: seq<Action>)
    requires t >= 2 && Inv(t, c0) && Ordered(c0) && Valid(t, c0, acts)
    ensures Ordered(Run(t, c0, acts))
  {
    hide Sub, Exec, Enabled, Line, Unsettled;
    if acts != [] {
      var front, a := acts[..|acts| - 1], acts[|acts| - 1];
      RunOrdered(t, c0, front);
      RunInv(t, c0, front);
      StepLine(t, Run(t, c0, front), a);
      StepUnsettled(t, Run(t, c0, front), a);
    }
  }

  /**
   In every run, whatever is passed over, aborted or given up on the way: effects happen in the
   order of delivery and confirms in the order of the effects, so both in the order of delivery.
   */
  lemma OrderKept(t: nat, start: Client, acts: seq<Action>)
    requires t >= 2 && start in {NEW_BACKEND, NEW_WORKER} && Valid(t, start, acts)
    ensures var c := Run(t, start, acts);
            Sub(c.served, c.delivered) && Sub(c.confirmed, c.served) && Sub(c.confirmed, c.delivered)
  {
    hide Run, Valid;
    NewInv(t, start);
    RunOrdered(t, start, acts);
    Sides(Run(t, start, acts));
  }

  lemma Sides(c: Client)
    requires Ordered(c)
    ensures Sub(c.served, c.delivered) && Sub(c.confirmed, c.served) && Sub(c.confirmed, c.delivered)
  {
    hide Sub, Callback, Hand, Flat;
    assert Line(c) == c.served + (Callback(c.pc) + c.current + Flat(c.arrived)) + [];
    SubDrop(c.served, Callback(c.pc) + c.current + Flat(c.arrived), [], c.delivered);
    assert Unsettled(c) == c.confirmed + (c.held + Hand(c.pc)) + [];
    SubDrop(c.confirmed, c.held + Hand(c.pc), [], c.served);
    assert c.served + [] == c.served && c.confirmed + [] == c.confirmed;
    SubTrans(c.confirmed, c.served, c.delivered);
  }
}

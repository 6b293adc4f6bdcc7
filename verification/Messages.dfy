/** Messages, and the sequence facts the delivery proofs share. */
module Messages {

  type Uri = string

  /** A stored message: its broker-assigned identity, the queue it was posted to, and its bytes. */
  datatype Message = Message(guid: nat, uri: Uri, payload: seq<bv8>)

  function Elems(s: seq<Message>): set<Message> {
    set m | m in s
  }

  ghost predicate NoDup(s: seq<Message>) {
    forall m :: multiset(s)[m] <= 1
  }

  /** The messages of a list of events, in order. */
  function Flat(events: seq<seq<Message>>): seq<Message> {
    if events == [] then [] else events[0] + Flat(events[1..])
  }

  lemma FlatHead(events: seq<seq<Message>>)
    ensures events != [] ==> Flat(events) == events[0] + Flat(events[1..])
  {
  }

  lemma {:induction false} FlatAppend(events: seq<seq<Message>>, e: seq<Message>)
    ensures Flat(events + [e]) == Flat(events) + e
  {
    if events == [] {
      assert events + [e] == [e];
      assert Flat([e]) == e + Flat([e][1..]) == e;
    } else {
      assert (events + [e])[1..] == events[1..] + [e];
      FlatAppend(events[1..], e);
    }
  }

  /** The messages of one queue. */
  function Share(ms: set<Message>, u: Uri): set<Message> {
    set m | m in ms && m.uri == u
  }

  lemma SubsetSize<T>(a: set<T>, b: set<T>)
    requires a <= b
    ensures |a| <= |b|
  {
    assert b == a + (b - a);
  }

  lemma {:induction false} ElemsSize(s: seq<Message>)
    ensures |Elems(s)| <= |s|
  {
    if s != [] {
      ElemsSize(s[1..]);
      assert Elems(s) == {s[0]} + Elems(s[1..]);
    }
  }

  /** A duplicate-free list has as many elements as positions. */
  lemma {:induction false} NoDupSize(s: seq<Message>)
    requires NoDup(s)
    ensures |Elems(s)| == |s|
  {
    if s != [] {
      var rest := s[1..];
      assert s == [s[0]] + rest;
      forall m ensures multiset(rest)[m] <= 1 {
        assert multiset(s)[m] == multiset([s[0]])[m] + multiset(rest)[m];
      }
      assert s[0] !in rest by {
        assert multiset(s)[s[0]] == 1 + multiset(rest)[s[0]];
      }
      NoDupSize(rest);
      assert Elems(s) == {s[0]} + Elems(rest);
    }
  }

  /** And the converse: as many elements as positions leaves no room for a repetition. */
  lemma {:induction false} SizeNoDup(s: seq<Message>)
    requires |Elems(s)| >= |s|
    ensures NoDup(s)
  {
    if s != [] {
      var rest := s[1..];
      assert s == [s[0]] + rest;
      assert Elems(s) == {s[0]} + Elems(rest);
      ElemsSize(rest);
      assert s[0] !in Elems(rest);
      SizeNoDup(rest);
      forall m ensures multiset(s)[m] <= 1 {
        assert multiset(s)[m] == multiset([s[0]])[m] + multiset(rest)[m];
        InCopies(rest, m);
      }
    }
  }

  lemma InCopies(s: seq<Message>, m: Message)
    ensures m in s <==> multiset(s)[m] >= 1
  {
    assert m in s <==> m in multiset(s);
  }

  function GuidBound(s: seq<Message>): (b: nat)
    ensures forall m :: m in s ==> m.guid < b
  {
    if s == [] then 0
    else
      var rest := GuidBound(s[1..]);
      if s[0].guid < rest then rest else s[0].guid + 1
  }

  /** `n` messages of one queue, all different and numbered from `from`. */
  function Batch(u: Uri, from: nat, n: nat): (ms: seq<Message>)
    ensures |ms| == n
  {
    seq(n, i requires i >= 0 => Message(from + i, u, []))
  }

  lemma {:induction false} BatchNoDup(u: Uri, from: nat, n: nat)
    ensures NoDup(Batch(u, from, n))
    decreases n
  {
    if n > 0 {
      var m, rest := Message(from, u, []), Batch(u, from + 1, n - 1);
      BatchNoDup(u, from + 1, n - 1);
      assert Batch(u, from, n) == [m] + rest;
      forall x ensures multiset(Batch(u, from, n))[x] <= 1 {
        assert multiset([m] + rest)[x] == multiset([m])[x] + multiset(rest)[x];
        InCopies(rest, x);
      }
    }
  }
}

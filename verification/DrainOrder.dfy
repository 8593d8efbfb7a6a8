/**
 Replaying held frames while others of the same operation come in: which schedules keep the bytes in
 the order of their arrival.
 */
module DrainOrder {
  import opened Basics

  /** A turn while a drain is under way: the next held entry, or a frame from the wire. */
  datatype Turn = Replayed(payload: Bytes) | Live(payload: Bytes)

  function HeldOf(ts: seq<Turn>): seq<Bytes> {
    if ts == [] then [] else (if ts[0].Replayed? then [ts[0].payload] else []) + HeldOf(ts[1..])
  }

  function LiveOf(ts: seq<Turn>): seq<Bytes> {
    if ts == [] then [] else (if ts[0].Live? then [ts[0].payload] else []) + LiveOf(ts[1..])
  }

  /** The bytes in the order of the turns, and in the order in which they came from the wire. */
  function Appended(ts: seq<Turn>): Bytes {
    if ts == [] then [] else ts[0].payload + Appended(ts[1..])
  }

  function Arrival(ts: seq<Turn>): Bytes {
    Concat(HeldOf(ts)) + Concat(LiveOf(ts))
  }

  /** A held entry with any bytes is still to be replayed. */
  predicate HasHeld(ts: seq<Turn>) {
    ts != [] && ((ts[0].Replayed? && ts[0].payload != []) || HasHeld(ts[1..]))
  }

  /** A frame with any bytes is handled while a held entry with any bytes is still to be replayed. */
  predicate Overtakes(ts: seq<Turn>) {
    ts != [] && ((ts[0].Live? && ts[0].payload != [] && HasHeld(ts[1..])) || Overtakes(ts[1..]))
  }

  /** The same turns with other contents of the same lengths. */
  predicate SameShape(a: seq<Turn>, b: seq<Turn>) {
    && |a| == |b|
    && forall i :: 0 <= i < |a| ==> a[i].Live? == b[i].Live? && |a[i].payload| == |b[i].payload|
  }

  lemma {:induction false} ShapeDecides(a: seq<Turn>, b: seq<Turn>)
    requires SameShape(a, b)
    ensures HasHeld(a) <==> HasHeld(b)
    ensures Overtakes(a) <==> Overtakes(b)
  {
    if a != [] {
      assert a[0].Live? == b[0].Live? && |a[0].payload| == |b[0].payload|;
      ShapeDecides(a[1..], b[1..]);
    }
  }

  // ----- the order of the bytes

  lemma {:induction false} NothingHeld(ts: seq<Turn>)
    requires !HasHeld(ts)
    ensures Concat(HeldOf(ts)) == []
  {
    if ts != [] {
      NothingHeld(ts[1..]);
      HeldStep(ts);
    }
  }

  lemma HeldStep(ts: seq<Turn>)
    requires ts != []
    ensures Concat(HeldOf(ts)) == (if ts[0].Replayed? then ts[0].payload else []) + Concat(HeldOf(ts[1..]))
    ensures Concat(LiveOf(ts)) == (if ts[0].Live? then ts[0].payload else []) + Concat(LiveOf(ts[1..]))
  {
    var held, live := HeldOf(ts[1..]), LiveOf(ts[1..]);
    if ts[0].Replayed? {
      assert ([ts[0].payload] + held)[1..] == held;
      assert [] + live == live;
    } else {
      assert ([ts[0].payload] + live)[1..] == live;
      assert [] + held == held;
    }
  }

  /** If nothing overtakes, the bytes are in the order of their arrival, whatever they are. */
  lemma {:induction false} InOrder(ts: seq<Turn>)
    requires !Overtakes(ts)
    ensures Appended(ts) == Arrival(ts)
  {
    if ts != [] {
      InOrder(ts[1..]);
      HeldStep(ts);
      var p, held, live := ts[0].payload, Concat(HeldOf(ts[1..])), Concat(LiveOf(ts[1..]));
      if ts[0].Replayed? {
        Associative(p, held, live);
      } else if p != [] {
        NothingHeld(ts[1..]);
      }
    }
  }

  /** Held bytes marked 1 and live bytes marked 2. */
  function Marked(ts: seq<Turn>): seq<Turn> {
    if ts == [] then []
    else [if ts[0].Replayed? then Replayed(seq(|ts[0].payload|, _ => 1)) else Live(seq(|ts[0].payload|, _ => 2))]
         + Marked(ts[1..])
  }

  lemma {:induction false} MarkedShape(ts: seq<Turn>)
    ensures SameShape(ts, Marked(ts))
  {
    if ts != [] {
      MarkedShape(ts[1..]);
      assert Marked(ts)[1..] == Marked(ts[1..]);
      forall i | 0 <= i < |ts|
        ensures ts[i].Live? == Marked(ts)[i].Live? && |ts[i].payload| == |Marked(ts)[i].payload|
      {
        if i > 0 {
          assert ts[i] == ts[1..][i - 1] && Marked(ts)[i] == Marked(ts[1..])[i - 1];
        }
      }
    }
  }

  predicate Ascending(bytes: Bytes) {
    forall i, j :: 0 <= i < j < |bytes| ==> bytes[i] <= bytes[j]
  }

  lemma {:induction false} MarkedArrival(ts: seq<Turn>)
    ensures forall x :: x in Concat(HeldOf(Marked(ts))) ==> x == 1
    ensures forall x :: x in Concat(LiveOf(Marked(ts))) ==> x == 2
    ensures Ascending(Arrival(Marked(ts)))
  {
    if ts != [] {
      MarkedArrival(ts[1..]);
      assert Marked(ts)[1..] == Marked(ts[1..]);
      HeldStep(Marked(ts));
    }
    OnesThenTwos(Concat(HeldOf(Marked(ts))), Concat(LiveOf(Marked(ts))));
  }

  lemma OnesThenTwos(held: Bytes, live: Bytes)
    requires (forall x :: x in held ==> x == 1) && forall x :: x in live ==> x == 2
    ensures Ascending(held + live)
  {
    forall i, j | 0 <= i < j < |held + live| ensures (held + live)[i] <= (held + live)[j] {
      assert i < |held| ==> (held + live)[i] in held;
      assert i >= |held| ==> (held + live)[i] == live[i - |held|] && live[i - |held|] in live;
      assert j < |held| ==> (held + live)[j] in held;
      assert j >= |held| ==> (held + live)[j] == live[j - |held|] && live[j - |held|] in live;
    }
  }

  lemma {:induction false} MarkedHeld(ts: seq<Turn>)
    requires HasHeld(ts)
    ensures 1 in Appended(Marked(ts))
  {
    var rest := Appended(Marked(ts[1..]));
    assert Marked(ts)[1..] == Marked(ts[1..]);
    if ts[0].Replayed? && ts[0].payload != [] {
      assert Marked(ts)[0].payload[0] == 1;
      assert Appended(Marked(ts))[0] == 1;
    } else {
      MarkedHeld(ts[1..]);
      assert Appended(Marked(ts)) == Marked(ts)[0].payload + rest;
    }
  }

  lemma {:induction false} MarkedDescends(ts: seq<Turn>)
    requires Overtakes(ts)
    ensures !Ascending(Appended(Marked(ts)))
  {
    var rest := Appended(Marked(ts[1..]));
    var all := Appended(Marked(ts));
    assert Marked(ts)[1..] == Marked(ts[1..]);
    var p := Marked(ts)[0].payload;
    assert all == p + rest;
    if ts[0].Live? && ts[0].payload != [] && HasHeld(ts[1..]) {
      MarkedHeld(ts[1..]);
      var j :| 0 <= j < |rest| && rest[j] == 1;
      assert all[0] == 2 && all[|p| + j] == 1;
    } else {
      MarkedDescends(ts[1..]);
      var i, j :| 0 <= i < j < |rest| && rest[i] > rest[j];
      assert all[|p| + i] == rest[i] && all[|p| + j] == rest[j];
    }
  }

  /** For the contents of a shape as a whole: the order of arrival survives whatever they are exactly
      if nothing overtakes. */
  lemma ShapeIsExact(ts: seq<Turn>)
    ensures (forall us: seq<Turn> :: SameShape(ts, us) ==> Appended(us) == Arrival(us)) <==> !Overtakes(ts)
  {
    if Overtakes(ts) {
      MarkedShape(ts);
      MarkedDescends(ts);
      MarkedArrival(ts);
      assert Appended(Marked(ts)) != Arrival(Marked(ts));
    } else {
      forall us: seq<Turn> | SameShape(ts, us) ensures Appended(us) == Arrival(us) {
        ShapeDecides(ts, us);
        InOrder(us);
      }
    }
  }
}

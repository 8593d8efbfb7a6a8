/**
 The browser's buffer for frames that arrive before the header of their operation: per lane an
 insertion-ordered table from operation to entries, with small frames of one generation coalesced.
 */
module EarlyFrames {
  import opened Basics

  const MAX_BYTES := 5 * 1024 * 1024 + 64 * 1024
  const COALESCE_BYTES := 64 * 1024
  const MAX_COUNT := 128
  const MAX_OPERATIONS := 128

  /** A chunk frame of one lane. */
  datatype Frame = Frame(op: nat, generation: nat, payload: Bytes)

  /** A buffered entry; `room` says that it has a buffer that further frames can be copied into. */
  datatype Held = Held(generation: nat, payload: Bytes, room: bool)

  datatype Slot = Slot(op: nat, held: seq<Held>)

  type Table = seq<Slot>

  function Find(t: Table, op: nat): seq<Held> {
    if t == [] then [] else if t[0].op == op then t[0].held else Find(t[1..], op)
  }

  predicate Has(t: Table, op: nat) {
    t != [] && (t[0].op == op || Has(t[1..], op))
  }

  function Put(t: Table, op: nat, held: seq<Held>): Table {
    if t == [] then [Slot(op, held)]
    else if t[0].op == op then [Slot(op, held)] + t[1..]
    else [t[0]] + Put(t[1..], op, held)
  }

  function Delete(t: Table, op: nat): Table {
    if t == [] then [] else if t[0].op == op then t[1..] else [t[0]] + Delete(t[1..], op)
  }

  function BytesOf(held: seq<Held>): nat {
    if held == [] then 0 else |held[0].payload| + BytesOf(held[1..])
  }

  /** The bytes and the number of the entries buffered in a table. */
  function TableBytes(t: Table): nat {
    if t == [] then 0 else BytesOf(t[0].held) + TableBytes(t[1..])
  }

  function TableCount(t: Table): nat {
    if t == [] then 0 else |t[0].held| + TableCount(t[1..])
  }

  /** Every operation has one slot, and it is not empty. */
  predicate Proper(t: Table) {
    t != [] ==> t[0].held != [] && !Has(t[1..], t[0].op) && Proper(t[1..])
  }

  lemma {:induction false} PutFinds(t: Table, op: nat, held: seq<Held>)
    requires Proper(t) && held != []
    ensures var u := Put(t, op, held);
      && Proper(u)
      && (forall x :: Find(u, x) == if x == op then held else Find(t, x))
      && (forall x :: Has(u, x) <==> x == op || Has(t, x))
      && TableBytes(u) == TableBytes(t) - BytesOf(Find(t, op)) + BytesOf(held)
      && TableCount(u) == TableCount(t) - |Find(t, op)| + |held|
      && |u| == |t| + (if Has(t, op) then 0 else 1)
  {
    if t != [] {
      if t[0].op == op {
        assert Put(t, op, held)[1..] == t[1..];
      } else {
        PutFinds(t[1..], op, held);
        assert Put(t, op, held)[1..] == Put(t[1..], op, held);
      }
    }
  }

  lemma {:induction false} DeleteFinds(t: Table, op: nat)
    requires Proper(t)
    ensures var u := Delete(t, op);
      && Proper(u)
      && (forall x :: Find(u, x) == if x == op then [] else Find(t, x))
      && (forall x :: Has(u, x) <==> x != op && Has(t, x))
      && TableBytes(u) == TableBytes(t) - BytesOf(Find(t, op))
      && TableCount(u) == TableCount(t) - |Find(t, op)|
      && |u| <= |t|
  {
    if t != [] {
      if t[0].op == op {
        NotFound(t[1..], op);
      } else {
        DeleteFinds(t[1..], op);
        assert Delete(t, op)[1..] == Delete(t[1..], op);
      }
    }
  }

  lemma {:induction false} NotFound(t: Table, op: nat)
    requires !Has(t, op)
    ensures Find(t, op) == []
  {
    if t != [] {
      NotFound(t[1..], op);
    }
  }

  lemma {:induction false} FoundIsCounted(t: Table, op: nat)
    ensures BytesOf(Find(t, op)) <= TableBytes(t) && |Find(t, op)| <= TableCount(t)
  {
    if t != [] && t[0].op != op {
      FoundIsCounted(t[1..], op);
    }
  }

  // ----- one operation's entries

  /** The buffered bytes of one generation, in order. */
  function BytesAt(held: seq<Held>, generation: nat): Bytes {
    if held == [] then []
    else At(held[0], generation) + BytesAt(held[1..], generation)
  }

  function At(h: Held, generation: nat): Bytes {
    if h.generation == generation then h.payload else []
  }

  function Piece(f: Frame, generation: nat): Bytes {
    if f.generation == generation then f.payload else []
  }

  /** Whether a frame fits into the last entry's buffer. */
  predicate Coalesces(held: seq<Held>, f: Frame) {
    held != [] &&
    var last := held[|held| - 1];
    last.room && last.generation == f.generation && |last.payload| + |f.payload| <= COALESCE_BYTES
  }

  /** The entries with one more frame. */
  function Stored(held: seq<Held>, f: Frame): (r: seq<Held>)
    ensures r != []
  {
    if Coalesces(held, f) then
      var last := held[|held| - 1];
      held[..|held| - 1] + [last.(payload := last.payload + f.payload)]
    else held + [Held(f.generation, f.payload, |f.payload| < COALESCE_BYTES)]
  }

  lemma {:induction false} BytesAtAppend(a: seq<Held>, b: seq<Held>, generation: nat)
    ensures BytesAt(a + b, generation) == BytesAt(a, generation) + BytesAt(b, generation)
  {
    if a == [] {
      assert a + b == b;
    } else {
      BytesAtAppend(a[1..], b, generation);
      assert (a + b)[0] == a[0] && (a + b)[1..] == a[1..] + b;
      Associative(At(a[0], generation), BytesAt(a[1..], generation), BytesAt(b, generation));
    }
  }

  lemma {:induction false} BytesOfAppend(a: seq<Held>, b: seq<Held>)
    ensures BytesOf(a + b) == BytesOf(a) + BytesOf(b)
  {
    if a == [] {
      assert a + b == b;
    } else {
      BytesOfAppend(a[1..], b);
      assert (a + b)[0] == a[0] && (a + b)[1..] == a[1..] + b;
    }
  }

  lemma BytesAtOne(h: Held, generation: nat)
    ensures BytesAt([h], generation) == At(h, generation)
    ensures BytesOf([h]) == |h.payload|
  {
    assert [h][1..] == [];
  }

  /** Storing a frame, coalesced or not, appends its bytes to those of its generation and to no
      other's, and adds an entry only if it does not coalesce. */
  lemma StoredKeepsBytes(held: seq<Held>, f: Frame, generation: nat)
    ensures BytesAt(Stored(held, f), generation) == BytesAt(held, generation) + Piece(f, generation)
    ensures BytesOf(Stored(held, f)) == BytesOf(held) + |f.payload|
    ensures |Stored(held, f)| == |held| + (if Coalesces(held, f) then 0 else 1)
  {
    if Coalesces(held, f) {
      var last := held[|held| - 1];
      var front := held[..|held| - 1];
      var merged := last.(payload := last.payload + f.payload);
      assert held == front + [last];
      BytesAtAppend(front, [last], generation);
      BytesAtAppend(front, [merged], generation);
      BytesOfAppend(front, [last]);
      BytesOfAppend(front, [merged]);
      BytesAtOne(last, generation);
      BytesAtOne(merged, generation);
      assert At(merged, generation) == At(last, generation) + Piece(f, generation);
      Associative(BytesAt(front, generation), At(last, generation), Piece(f, generation));
    } else {
      var h := Held(f.generation, f.payload, |f.payload| < COALESCE_BYTES);
      BytesAtAppend(held, [h], generation);
      BytesOfAppend(held, [h]);
      BytesAtOne(h, generation);
    }
  }
}

/** The browser's memory of operations it is done with: the newest 64, in order of retirement. */
module Retired {

  const KEPT := 64

  function Retire(retired: seq<nat>, op: nat): (r: seq<nat>)
    ensures op != 0 ==> op in r
    ensures forall x :: x in r ==> x in retired || x == op
    ensures |retired| <= 64 ==> |r| <= 64
  {
    if op == 0 || op in retired then retired
    else if |retired| + 1 > KEPT then
      assert (retired + [op])[1..] == retired[1..] + [op];
      (retired + [op])[1..]
    else retired + [op]
  }

  /** How many operations have been retired after this one. */
  function Newer(retired: seq<nat>, op: nat): nat {
    if retired == [] || retired[|retired| - 1] == op then 0 else 1 + Newer(retired[..|retired| - 1], op)
  }

  lemma {:induction false} NewerBound(retired: seq<nat>, op: nat)
    requires op in retired
    ensures Newer(retired, op) < |retired| && retired[|retired| - 1 - Newer(retired, op)] == op
  {
    if retired[|retired| - 1] != op {
      assert retired == retired[..|retired| - 1] + [retired[|retired| - 1]];
      NewerBound(retired[..|retired| - 1], op);
    }
  }

  lemma {:induction false} NewerDrops(retired: seq<nat>, op: nat)
    requires op in retired && Newer(retired, op) < |retired| - 1
    ensures op in retired[1..] && Newer(retired[1..], op) == Newer(retired, op)
  {
    var last := |retired| - 1;
    if retired[last] == op {
      assert retired[1..][last - 1] == op;
    } else {
      assert retired == retired[..last] + [retired[last]];
      NewerDrops(retired[..last], op);
      assert retired[..last][1..] == retired[1..][..last - 1];
      assert retired[1..][last - 1] == retired[last];
      assert retired[1..][..last - 1] + [retired[last]] == retired[1..];
    }
  }

  /** An operation is forgotten only when 64 others have been retired after it. */
  lemma RetireKeeps(retired: seq<nat>, x: nat, op: nat)
    requires op in retired && |retired| <= 64 && Newer(retired, op) < 63
    ensures op in Retire(retired, x) && Newer(Retire(retired, x), op) <= Newer(retired, op) + 1
  {
    if x != 0 && x !in retired {
      var more := retired + [x];
      assert more[..|more| - 1] == retired && more[|more| - 1] == x != op;
      assert Newer(more, op) == Newer(retired, op) + 1;
      if |more| > KEPT {
        NewerBound(retired, op);
        NewerDrops(more, op);
      }
    }
  }

  lemma NewestIsLast(retired: seq<nat>, x: nat, op: nat)
    requires op !in retired && op in Retire(retired, x)
    ensures x == op && Newer(Retire(retired, x), op) == 0
  {
    var r := Retire(retired, x);
    assert r[|r| - 1] == x;
  }
}

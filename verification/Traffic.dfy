/** Traffic classes, frame kinds, lanes and the bounds of the class queues. */
module Traffic {
  import opened Basics

  datatype Class = Control | Interactive | Thumbnail | Bulk

  datatype Kind = Text | Binary

  datatype Lane = ControlLane | MediaLane | BulkLane

  const CONTROL_BURST_LIMIT := 8

  function Cap(c: Class): (cap: nat)
    ensures 256 * 1024 <= cap <= 8 * 1024 * 1024
  {
    match c
    case Control => 8 * 1024 * 1024
    case Interactive => 512 * 1024
    case Thumbnail => 2 * 1024 * 1024
    case Bulk => 256 * 1024
  }

  function LaneForClass(c: Class): Lane {
    match c
    case Control => ControlLane
    case Interactive => MediaLane
    case Thumbnail => MediaLane
    case Bulk => BulkLane
  }

  /** The agent's numeric class codes; any other number is an unknown class. */
  function ClassOfCode(code: nat): Option<Class> {
    match code
    case 0 => Some(Control)
    case 1 => Some(Interactive)
    case 2 => Some(Thumbnail)
    case 3 => Some(Bulk)
    case _ => None
  }

  function KindOfCode(code: nat): Option<Kind> {
    match code
    case 1 => Some(Text)
    case 2 => Some(Binary)
    case _ => None
  }

  /** One accepted send. The id stands for the identity of the sender's request object. */
  datatype Request = Request(id: nat, cls: Class, kind: Kind, payload: Bytes)

  predicate Sendable(r: Request) {
    0 < |r.payload| <= Cap(r.cls)
  }

  datatype Error =
    | UnknownClass
    | TooLarge
    | UnknownKind
    | EmptyPayload
    | Aborted
    | Closed
    | WriterError(code: nat)

  /** One value for each class: the schedulers' tables keyed by class. */
  datatype PerClass<T> = PerClass(control: T, interactive: T, thumbnail: T, bulk: T) {

    function At(c: Class): T {
      match c
      case Control => control
      case Interactive => interactive
      case Thumbnail => thumbnail
      case Bulk => bulk
    }

    function With(c: Class, v: T): (p: PerClass<T>)
      ensures forall k: Class :: p.At(k) == if k == c then v else At(k)
    {
      match c
      case Control => this.(control := v)
      case Interactive => this.(interactive := v)
      case Thumbnail => this.(thumbnail := v)
      case Bulk => this.(bulk := v)
    }
  }

  type Queues = PerClass<seq<Request>>

  type Tally = PerClass<int>

  const NO_REQUESTS: Queues := PerClass([], [], [], [])
  const NO_BYTES: Tally := PerClass(0, 0, 0, 0)

  function Total(rs: seq<Request>): nat {
    if rs == [] then 0 else |rs[0].payload| + Total(rs[1..])
  }

  lemma {:induction false} TotalAppend(a: seq<Request>, b: seq<Request>)
    ensures Total(a + b) == Total(a) + Total(b)
  {
    if a == [] {
      assert a + b == b;
    } else {
      TotalAppend(a[1..], b);
      assert (a + b)[1..] == a[1..] + b;
    }
  }

  lemma TotalSnoc(a: seq<Request>, r: Request)
    ensures Total(a + [r]) == Total(a) + |r.payload|
  {
    TotalAppend(a, [r]);
    assert Total([r]) == |r.payload|;
  }

  /** The requests of one class, in order. */
  function OfClass(rs: seq<Request>, c: Class): seq<Request> {
    if rs == [] then []
    else (if rs[0].cls == c then [rs[0]] else []) + OfClass(rs[1..], c)
  }

  lemma {:induction false} OfClassAppend(a: seq<Request>, b: seq<Request>, c: Class)
    ensures OfClass(a + b, c) == OfClass(a, c) + OfClass(b, c)
  {
    if a == [] {
      assert a + b == b;
    } else {
      OfClassAppend(a[1..], b, c);
      assert (a + b)[1..] == a[1..] + b;
      var first := if a[0].cls == c then [a[0]] else [];
      assert first + (OfClass(a[1..], c) + OfClass(b, c)) == (first + OfClass(a[1..], c)) + OfClass(b, c);
    }
  }

  /** The requests whose ids are not in `gone`, in order. */
  function Without(rs: seq<Request>, gone: set<nat>): seq<Request> {
    if rs == [] then []
    else (if rs[0].id in gone then [] else [rs[0]]) + Without(rs[1..], gone)
  }

  lemma {:induction false} WithoutAppend(a: seq<Request>, b: seq<Request>, gone: set<nat>)
    ensures Without(a + b, gone) == Without(a, gone) + Without(b, gone)
  {
    if a == [] {
      assert a + b == b;
    } else {
      WithoutAppend(a[1..], b, gone);
      assert (a + b)[1..] == a[1..] + b;
      var first := if a[0].id in gone then [] else [a[0]];
      assert first + (Without(a[1..], gone) + Without(b, gone)) == (first + Without(a[1..], gone)) + Without(b, gone);
    }
  }

  lemma {:induction false} WithoutTwice(rs: seq<Request>, a: set<nat>, b: set<nat>)
    ensures Without(Without(rs, a), b) == Without(rs, a + b)
  {
    if rs != [] {
      WithoutTwice(rs[1..], a, b);
      WithoutAppend(if rs[0].id in a then [] else [rs[0]], Without(rs[1..], a), b);
    }
  }

  function Ids(rs: seq<Request>): set<nat> {
    set r | r in rs :: r.id
  }

  lemma {:induction false} WithoutNone(rs: seq<Request>, gone: set<nat>)
    requires Ids(rs) !! gone
    ensures Without(rs, gone) == rs
  {
    if rs != [] {
      assert rs[0].id in Ids(rs);
      assert Ids(rs[1..]) <= Ids(rs);
      WithoutNone(rs[1..], gone);
    }
  }

  lemma {:induction false} WithoutAll(rs: seq<Request>, gone: set<nat>)
    requires Ids(rs) <= gone
    ensures Without(rs, gone) == []
  {
    if rs != [] {
      assert rs[0].id in Ids(rs);
      assert Ids(rs[1..]) <= Ids(rs);
      WithoutAll(rs[1..], gone);
    }
  }
}

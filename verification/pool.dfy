/**
  The bounded pool of backend connections (main.go, `backendQueue`,
  `getBackend` and `queueBackend`).

  The pool is a buffered channel of capacity 10 holding idle backends in
  FIFO order. Acquiring takes the head backend or, once the 100 ms wait has
  elapsed with the pool still empty, dials a new connection; releasing
  appends the backend or, once the 1 s wait has elapsed with the pool still
  full, closes it. Each operation is one atomic step here: the timeouts are
  the branches where the pool is empty or full, and the outcome of the dial
  is a parameter.
*/
module Pool {

  /** The buffer size of `backendQueue`. */
  const Capacity: nat := 10

  /** A connection to the backend server; `closed` records that it was closed. */
  class Backend {
    var closed: bool

    constructor ()
      ensures !closed
    {
      closed := false;
    }

    method Close()
      modifies this
      ensures closed
    {
      closed := true;
    }
  }

  /** Whether `net.Dial` reaches the backend address when the pool falls back to dialing. */
  datatype DialResult = DialOk | DialError(reason: string)

  /**
    What the dial branch of `getBackend` yields: the backend it wrapped
    around the new connection, or the dial's error.
  */
  datatype DialOutcome = Connected(conn: Backend) | Refused(reason: string)

  /** The `(*Backend, error)` pair returned by `getBackend`. */
  datatype Result<T> = Ok(value: T) | Err(reason: string)

  /** The idle backends left after an acquire, and what the acquire returned. */
  datatype Acquired = Acquired(idle: seq<Backend>, got: Result<Backend>)

  /** The idle backends left after a release, and whether the released backend was closed. */
  datatype Released = Released(idle: seq<Backend>, discarded: bool)

  /**
    `getBackend`: a non-empty pool hands out its head backend and keeps the
    rest in order; an empty pool is left as it is and the result is the
    dial's: the new connection, or the error and no backend.
  */
  function Acquire(idle: seq<Backend>, dial: DialOutcome): (a: Acquired)
    ensures idle != [] ==> a.got.Ok? && idle == [a.got.value] + a.idle
    ensures idle == [] ==> a.idle == [] && (a.got.Ok? <==> dial.Connected?)
    ensures idle == [] && dial.Connected? ==> a.got.value == dial.conn
    ensures idle == [] && dial.Refused? ==> a.got.reason == dial.reason
    ensures |a.idle| <= |idle|
  {
    if idle != [] then Acquired(idle[1..], Ok(idle[0]))
    else match dial
      case Connected(conn) => Acquired(idle, Ok(conn))
      case Refused(reason) => Acquired(idle, Err(reason))
  }

  /**
    `queueBackend`: the backend is appended when there is room and closed
    when the pool is full, so it ends up in exactly one of the pool and the
    closed connections, and the pool never exceeds its capacity.
  */
  function Release(idle: seq<Backend>, be: Backend): (r: Released)
    ensures r.discarded <==> |idle| >= Capacity
    ensures !r.discarded ==> r.idle == idle + [be]
    ensures r.discarded ==> r.idle == idle
    ensures |idle| <= Capacity ==> |r.idle| <= Capacity
  {
    if |idle| < Capacity then Released(idle + [be], false) else Released(idle, true)
  }

  /** One step taken by a relay worker on the pool. */
  datatype Op = Get(dial: DialOutcome) | Put(be: Backend)

  /**
    The outcome of a sequence of steps: the idle backends at the end, the
    backends handed out by acquires (in order), those of them that were
    newly dialed, and the released backends that were closed.
  */
  datatype Trace = Trace(idle: seq<Backend>, handedOut: seq<Backend>, dialed: seq<Backend>, discarded: seq<Backend>)

  /** The backend a step gives back to the pool, if any. */
  function Returned(op: Op): multiset<Backend>
  {
    if op.Put? then multiset{op.be} else multiset{}
  }

  /**
    The effect of one step: the idle backends after it and what it handed
    out, dialed or closed. A step keeps the pool within its capacity.
  */
  function Step(idle: seq<Backend>, op: Op): (s: Trace)
    ensures |s.handedOut| <= 1 && |s.dialed| <= 1 && |s.discarded| <= 1
    ensures |idle| <= Capacity ==> |s.idle| <= Capacity
  {
    match op
    case Get(dial) =>
      var a := Acquire(idle, dial);
      var got := if a.got.Ok? then [a.got.value] else [];
      Trace(a.idle, got, if idle == [] then got else [], [])
    case Put(be) =>
      var r := Release(idle, be);
      Trace(r.idle, [], [], if r.discarded then [be] else [])
  }

  /** A step neither loses nor duplicates a backend. */
  lemma StepConserves(idle: seq<Backend>, op: Op)
    ensures var s := Step(idle, op);
      multiset(idle) + Returned(op) + multiset(s.dialed)
        == multiset(s.idle) + multiset(s.handedOut) + multiset(s.discarded)
  {
  }

  /** `first` followed by `second`: the final pool of `second` and both outputs, in order. */
  function Then(first: Trace, second: Trace): Trace
  {
    Trace(second.idle, first.handedOut + second.handedOut, first.dialed + second.dialed,
          first.discarded + second.discarded)
  }

  /** The steps of `ops` applied in order, their outputs concatenated. */
  function Run(idle: seq<Backend>, ops: seq<Op>): Trace
    decreases |ops|
  {
    if ops == [] then Trace(idle, [], [], [])
    else
      var s := Step(idle, ops[0]);
      Then(s, Run(s.idle, ops[1..]))
  }

  /** The backends released by the steps of `ops`. */
  function ReleasedBy(ops: seq<Op>): multiset<Backend>
    decreases |ops|
  {
    if ops == [] then multiset{} else Returned(ops[0]) + ReleasedBy(ops[1..])
  }

  /** Whatever steps are applied, the pool never holds more than its capacity. */
  lemma {:induction false} RunWithinCapacity(idle: seq<Backend>, ops: seq<Op>)
    requires |idle| <= Capacity
    ensures |Run(idle, ops).idle| <= Capacity
    decreases |ops|
  {
    if ops != [] {
      RunWithinCapacity(Step(idle, ops[0]).idle, ops[1..]);
    }
  }

  /**
    No backend is lost or duplicated: the idle backends at the start, the
    released ones and the dialed ones are exactly the idle ones at the end,
    the handed out ones and the closed ones.
  */
  lemma {:induction false} RunConserves(idle: seq<Backend>, ops: seq<Op>)
    ensures var t := Run(idle, ops);
      multiset(idle) + ReleasedBy(ops) + multiset(t.dialed)
        == multiset(t.idle) + multiset(t.handedOut) + multiset(t.discarded)
    decreases |ops|
  {
    if ops != [] {
      var s := Step(idle, ops[0]);
      var t := Run(s.idle, ops[1..]);
      StepConserves(idle, ops[0]);
      RunConserves(s.idle, ops[1..]);
      calc {
        multiset(idle) + ReleasedBy(ops) + multiset(s.dialed + t.dialed);
        multiset(idle) + Returned(ops[0]) + multiset(s.dialed) + (ReleasedBy(ops[1..]) + multiset(t.dialed));
        multiset(s.idle) + multiset(s.handedOut) + multiset(s.discarded) + (ReleasedBy(ops[1..]) + multiset(t.dialed));
        multiset(s.handedOut) + multiset(s.discarded) + (multiset(s.idle) + ReleasedBy(ops[1..]) + multiset(t.dialed));
        multiset(s.handedOut) + multiset(s.discarded) + (multiset(t.idle) + multiset(t.handedOut) + multiset(t.discarded));
        multiset(t.idle) + multiset(s.handedOut + t.handedOut) + multiset(s.discarded + t.discarded);
      }
    }
  }

  /** Releasing each backend of `bes` in turn. */
  function Puts(bes: seq<Backend>): (ops: seq<Op>)
    ensures |ops| == |bes|
  {
    if bes == [] then [] else [Put(bes[0])] + Puts(bes[1..])
  }

  /** Acquiring once per dial outcome of `dials`. */
  function Gets(dials: seq<DialOutcome>): (ops: seq<Op>)
    ensures |ops| == |dials|
  {
    if dials == [] then [] else [Get(dials[0])] + Gets(dials[1..])
  }

  function Min(a: int, b: int): int
  {
    if a <= b then a else b
  }

  /**
    Releasing a sequence of backends queues them in release order until the
    pool is full and closes the rest, in order.
  */
  lemma {:induction false} ReleaseInOrder(idle: seq<Backend>, bes: seq<Backend>)
    requires |idle| <= Capacity
    decreases |bes|
    ensures var k := Min(|bes|, Capacity - |idle|);
      Run(idle, Puts(bes)) == Trace(idle + bes[..k], [], [], bes[k..])
  {
    var ops := Puts(bes);
    if bes != [] {
      var s := Step(idle, ops[0]);
      var t := Run(s.idle, ops[1..]);
      assert ops[0] == Put(bes[0]) && ops[1..] == Puts(bes[1..]);
      ReleaseInOrder(s.idle, bes[1..]);
      assert Run(idle, ops) == Trace(t.idle, s.handedOut + t.handedOut, s.dialed + t.dialed, s.discarded + t.discarded);
      var k := Min(|bes|, Capacity - |idle|);
      if |idle| < Capacity {
        assert s == Trace(idle + [bes[0]], [], [], []);
        assert t == Trace(s.idle + bes[1..][..k - 1], [], [], bes[1..][k - 1..]);
        assert s.idle + bes[1..][..k - 1] == idle + bes[..k];
        assert bes[1..][k - 1..] == bes[k..];
      } else {
        assert s == Trace(idle, [], [], [bes[0]]);
        assert t == Trace(idle, [], [], bes[1..]);
        assert [bes[0]] + bes[1..] == bes[k..];
      }
    }
  }

  /**
    As many acquires as there are idle backends hand them all out in queue
    order, dial nothing and leave the pool empty.
  */
  lemma {:induction false} DrainInOrder(idle: seq<Backend>, dials: seq<DialOutcome>)
    requires |dials| == |idle|
    ensures Run(idle, Gets(dials)) == Trace([], idle, [], [])
  {
    if idle != [] {
      assert Gets(dials)[1..] == Gets(dials[1..]);
      DrainInOrder(idle[1..], dials[1..]);
      assert [idle[0]] + idle[1..] == idle;
    }
  }

  /** Running two sequences of steps one after the other. */
  lemma {:induction false} RunAppend(idle: seq<Backend>, first: seq<Op>, second: seq<Op>)
    ensures var t1 := Run(idle, first);
      Run(idle, first + second) == Then(t1, Run(t1.idle, second))
    decreases |first|
  {
    if first == [] {
      assert first + second == second;
    } else {
      var ops := first + second;
      assert ops[0] == first[0] && ops[1..] == first[1..] + second;
      var s := Step(idle, first[0]);
      var rest := Run(s.idle, first[1..]);
      RunAppend(s.idle, first[1..], second);
      ThenAssociative(s, rest, Run(rest.idle, second));
    }
  }

  lemma ThenAssociative(a: Trace, b: Trace, c: Trace)
    ensures Then(a, Then(b, c)) == Then(Then(a, b), c)
  {
  }

  /**
    First in, first out: backends released into an empty pool that has room
    for all of them are handed out by the next acquires in release order.
  */
  lemma {:induction false} FirstInFirstOut(bes: seq<Backend>, dials: seq<DialOutcome>)
    requires |bes| <= Capacity
    requires |dials| == |bes|
    ensures Run([], Puts(bes) + Gets(dials)).handedOut == bes
  {
    ReleaseInOrder([], bes);
    assert [] + bes[..|bes|] == bes && bes[|bes|..] == [];
    var t1 := Run([], Puts(bes));
    assert t1 == Trace(bes, [], [], []);
    DrainInOrder(bes, dials);
    RunAppend([], Puts(bes), Gets(dials));
    assert Run([], Puts(bes) + Gets(dials)).handedOut == [] + bes;
  }

  /** The pool: `queue` is the content of the `backendQueue` buffer, head first. */
  class BackendPool {
    var queue: seq<Backend>

    ghost predicate Valid()
      reads this
    {
      |queue| <= Capacity
    }

    /** `make(chan *Backend, 10)`: an empty pool. */
    constructor ()
      ensures Valid()
      ensures queue == []
    {
      queue := [];
    }

    /**
      `getBackend`: takes the head backend if there is one; otherwise the
      wait times out and `dial` (the outcome of `net.Dial`) decides: a new,
      open backend is allocated around the connection, or the error is
      returned with no backend.
    */
    method GetBackend(dial: DialResult) returns (r: Result<Backend>)
      requires Valid()
      modifies this
      ensures Valid()
      ensures Acquired(queue, r) == Acquire(old(queue), if r.Ok? then Connected(r.value) else Refused(r.reason))
      ensures old(queue) == [] && dial.DialOk? ==> r.Ok? && fresh(r.value) && !r.value.closed
      ensures old(queue) == [] && dial.DialError? ==> r == Err(dial.reason)
    {
      if |queue| > 0 {
        r := Ok(queue[0]);
        queue := queue[1..];
      } else {
        match dial
        case DialOk =>
          var be := new Backend();
          r := Ok(be);
        case DialError(reason) =>
          r := Err(reason);
      }
    }

    /**
      `queueBackend`: appends `be` if there is room; otherwise the wait
      times out and `be` is closed. A queued backend is left open.
    */
    method QueueBackend(be: Backend)
      requires Valid()
      modifies this, be
      ensures Valid()
      ensures queue == Release(old(queue), be).idle
      ensures Release(old(queue), be).discarded ==> be.closed
      ensures !Release(old(queue), be).discarded ==> be.closed == old(be.closed)
    {
      if |queue| < Capacity {
        queue := queue + [be];
      } else {
        be.Close();
      }
    }
  }

  /** Backends come back out of the pool in the order they went in. */
  method ScenarioFifo()
  {
    var pool := new BackendPool();
    var b1 := new Backend();
    var b2 := new Backend();
    pool.QueueBackend(b1);
    pool.QueueBackend(b2);
    var r1 := pool.GetBackend(DialError("unreachable"));
    var r2 := pool.GetBackend(DialError("unreachable"));
    var r3 := pool.GetBackend(DialError("unreachable"));
    assert r1 == Ok(b1) && r2 == Ok(b2) && r3 == Err("unreachable");
    assert !b1.closed && !b2.closed;
    var r4 := pool.GetBackend(DialOk);
    assert r4.Ok? && r4.value != b1 && r4.value != b2 && !r4.value.closed;
  }
}

/** The maker's inbound connection limiter: a token bucket and two counters behind connection permits. */
module ConnectionLimiter {

  const MAX_CONCURRENT_SWAPS: nat := 30
  const MAX_INBOUND: nat := MAX_CONCURRENT_SWAPS * 3
  const MAX_PENDING: nat := MAX_CONCURRENT_SWAPS
  const PER_SECOND: real := 4.0
  const BURST: real := 30.0

  /** The limiter's fields, and for every live permit whether it is still pending. */
  datatype Books<K> = Books(active: int, pending: int, tokens: real, last: real, permits: map<K, bool>)

  datatype Step<K> =
    | Acquire(now: real, key: K)  // key: the permit handed out if the connection is admitted
    | Establish(permit: K)
    | Release(permit: K)

  function Refilled(tokens: real, last: real, now: real): real {
    var more := if now < last then tokens else tokens + (now - last) * PER_SECOND;
    if more < BURST then more else BURST
  }

  predicate Admits<K>(b: Books<K>, now: real) {
    Refilled(b.tokens, b.last, now) >= 1.0 && b.active < MAX_INBOUND && b.pending < MAX_PENDING
  }

  /** A token is spent even when the counters refuse the connection. */
  function Refused<K>(b: Books<K>, now: real): Books<K> {
    var refilled := Refilled(b.tokens, b.last, now);
    b.(tokens := if refilled < 1.0 then refilled else refilled - 1.0, last := now)
  }

  function Acquired<K>(b: Books<K>, now: real, key: K): Books<K> {
    if Admits(b, now) then Refused(b, now).(active := b.active + 1, pending := b.pending + 1, permits := b.permits[key := true])
    else Refused(b, now)
  }

  function Do<K>(b: Books<K>, s: Step<K>): Books<K>
    requires Possible(b, s)
  {
    match s
    case Acquire(now, key) => Acquired(b, now, key)
    case Establish(p) =>
      if b.permits[p] then b.(pending := b.pending - 1, permits := b.permits[p := false]) else b
    case Release(p) =>
      b.(pending := if b.permits[p] then b.pending - 1 else b.pending, active := b.active - 1, permits := b.permits - {p})
  }

  /** Permits are new when handed out, and used only while live. */
  predicate Possible<K>(b: Books<K>, s: Step<K>) {
    match s
    case Acquire(_, key) => key !in b.permits
    case Establish(p) => p in b.permits
    case Release(p) => p in b.permits
  }

  function PendingOf<K>(permits: map<K, bool>): set<K> {
    set p | p in permits && permits[p]
  }

  /** The counters are the live permit counts, within their limits, and the bucket is neither in debt nor overfull. */
  ghost predicate Balanced<K>(b: Books<K>) {
    && b.active == |b.permits| <= MAX_INBOUND
    && b.pending == |PendingOf(b.permits)| <= MAX_PENDING
    && 0.0 <= b.tokens <= BURST
  }

  function Start<K>(now: real): Books<K> {
    Books(0, 0, BURST, now, map[])
  }

  lemma StartIsBalanced<K>(now: real)
    ensures Balanced(Start<K>(now))
  {
    assert PendingOf(Start<K>(now).permits) == {};
  }

  lemma AcquireKeepsBalance<K>(b: Books<K>, now: real, key: K)
    requires Balanced(b) && key !in b.permits
    ensures Balanced(Acquired(b, now, key))
  {
    if Admits(b, now) {
      assert PendingOf(b.permits[key := true]) == PendingOf(b.permits) + {key};
    }
  }

  lemma EstablishKeepsBalance<K>(b: Books<K>, p: K)
    requires Balanced(b) && p in b.permits
    ensures Balanced(Do(b, Establish(p)))
  {
    if b.permits[p] {
      assert p in PendingOf(b.permits);
      assert PendingOf(b.permits[p := false]) == PendingOf(b.permits) - {p};
      assert b.permits[p := false].Keys == b.permits.Keys;
    }
  }

  lemma ReleaseKeepsBalance<K>(b: Books<K>, p: K)
    requires Balanced(b) && p in b.permits
    ensures Balanced(Do(b, Release(p)))
  {
    var rest := b.permits - {p};
    assert rest.Keys == b.permits.Keys - {p};
    assert |rest| == |rest.Keys| && |b.permits| == |b.permits.Keys|;
    assert PendingOf(rest) == PendingOf(b.permits) - {p};
    if b.permits[p] {
      assert p in PendingOf(b.permits);
    }
  }

  lemma StepKeepsBalance<K>(b: Books<K>, s: Step<K>)
    requires Balanced(b) && Possible(b, s)
    ensures Balanced(Do(b, s))
  {
    match s {
      case Acquire(now, key) => AcquireKeepsBalance(b, now, key);
      case Establish(p) => EstablishKeepsBalance(b, p);
      case Release(p) => ReleaseKeepsBalance(b, p);
    }
  }

  // ----------------------------------------------------------------- every run

  /** What a sequence of steps leads to, if each is possible when it comes. */
  ghost predicate Runs<K>(b: Books<K>, steps: seq<Step<K>>)
    decreases |steps|
  {
    steps == [] || (Possible(b, steps[0]) && Runs(Do(b, steps[0]), steps[1..]))
  }

  ghost function After<K>(b: Books<K>, steps: seq<Step<K>>): Books<K>
    requires Runs(b, steps)
    decreases |steps|
  {
    if steps == [] then b else After(Do(b, steps[0]), steps[1..])
  }

  lemma {:induction false} RunsStayBalanced<K>(b: Books<K>, steps: seq<Step<K>>)
    requires Balanced(b) && Runs(b, steps)
    ensures Balanced(After(b, steps))
    decreases |steps|
  {
    if steps != [] {
      StepKeepsBalance(b, steps[0]);
      RunsStayBalanced(Do(b, steps[0]), steps[1..]);
    }
  }

  ghost function Admitted<K>(b: Books<K>, steps: seq<Step<K>>): nat
    requires Runs(b, steps)
    decreases |steps|
  {
    if steps == [] then 0
    else (if steps[0].Acquire? && Admits(b, steps[0].now) then 1 else 0) + Admitted(Do(b, steps[0]), steps[1..])
  }

  /** The attempts come in order, none before the one time and none after the other. */
  predicate Between<K>(steps: seq<Step<K>>, from: real, to: real) {
    steps == [] ||
    (if steps[0].Acquire? then from <= steps[0].now <= to && Between(steps[1..], steps[0].now, to)
     else Between(steps[1..], from, to))
  }

  /** Tokens bought by time and tokens spent on admissions: from a bucket refilled at `last`. */
  lemma {:induction false} TokensPay<K>(b: Books<K>, steps: seq<Step<K>>, to: real)
    requires Balanced(b) && Runs(b, steps) && b.last <= to && Between(steps, b.last, to)
    ensures Admitted(b, steps) as real <= b.tokens + (to - b.last) * PER_SECOND
    decreases |steps|
  {
    if steps != [] {
      StepKeepsBalance(b, steps[0]);
      TokensPay(Do(b, steps[0]), steps[1..], to);
    }
  }

  /** In any window of time, whatever came before it, at most a burst and four a second are admitted. */
  lemma {:induction false} WindowIsBounded<K>(b: Books<K>, steps: seq<Step<K>>, from: real, to: real)
    requires Balanced(b) && Runs(b, steps) && b.last <= from <= to && Between(steps, from, to)
    ensures Admitted(b, steps) as real <= BURST + (to - from) * PER_SECOND
    decreases |steps|
  {
    if steps != [] {
      StepKeepsBalance(b, steps[0]);
      if steps[0].Acquire? {
        TokensPay(Do(b, steps[0]), steps[1..], to);
      } else {
        WindowIsBounded(Do(b, steps[0]), steps[1..], from, to);
      }
    }
  }

  // ---------------------------------------------------------------- the objects

  class Limiter {
    var active: nat
    var pending: nat
    var tokens: real
    var lastRefill: real
    ghost var live: set<Permit>

    /** The state as a value, with the live permits as keys. */
    ghost function View(): Books<Permit>
      reads this, live
    {
      Books(active, pending, tokens, lastRefill, map p | p in live :: p.pending)
    }

    ghost predicate Valid()
      reads this, live
    {
      Balanced(View())
    }

    constructor (now: real)
      ensures Valid() && View() == Start(now)
    {
      active, pending, tokens, lastRefill, live := 0, 0, BURST, now, {};
      new;
      StartIsBalanced<Permit>(now);
      assert View().permits.Keys == {};
    }

    method TakeToken(now: real) returns (got: bool)
      modifies this`tokens, this`lastRefill
      ensures got <==> Refilled(old(tokens), old(lastRefill), now) >= 1.0
      ensures View() == Refused(old(View()), now)
    {
      tokens := Refilled(tokens, lastRefill, now);
      lastRefill := now;
      got := tokens >= 1.0;
      if got {
        tokens := tokens - 1.0;
      }
      assert View().permits == old(View()).permits;
    }

    method TryAcquire(now: real) returns (permit: Permit?)
      requires Valid()
      modifies this
      ensures Valid()
      ensures permit != null <==> Admits(old(View()), now)
      ensures permit == null ==> View() == Refused(old(View()), now)
      ensures permit != null ==> fresh(permit) && permit.limiter == this && View() == Acquired(old(View()), now, permit)
    {
      var got := TakeToken(now);
      if !got || active >= MAX_INBOUND || pending >= MAX_PENDING {
        return null;
      }
      ghost var books := View();
      permit := new Permit(this);
      active, pending := active + 1, pending + 1;
      live := live + {permit};
      assert View().permits == books.permits[permit := true];
      AcquireKeepsBalance(old(View()), now, permit);
    }
  }

  class Permit {
    const limiter: Limiter
    var pending: bool

    constructor (limiter: Limiter)
      ensures this.limiter == limiter && pending
    {
      this.limiter, this.pending := limiter, true;
    }

    method MarkEstablished()
      requires limiter.Valid() && this in limiter.live
      modifies this, limiter
      ensures limiter.Valid() && limiter.live == old(limiter.live)
      ensures limiter.View() == Do(old(limiter.View()), Establish(this))
    {
      EstablishKeepsBalance(limiter.View(), this);
      if pending {
        pending := false;
        limiter.pending := limiter.pending - 1;
        assert limiter.View().permits == old(limiter.View()).permits[this := false];
      }
    }

    method Release()
      requires limiter.Valid() && this in limiter.live
      modifies limiter
      ensures limiter.Valid() && limiter.live == old(limiter.live) - {this}
      ensures limiter.View() == Do(old(limiter.View()), Step.Release(this))
    {
      ReleaseKeepsBalance(limiter.View(), this);
      if pending {
        limiter.pending := limiter.pending - 1;
      }
      limiter.active := limiter.active - 1;
      limiter.live := limiter.live - {this};
      assert limiter.View().permits == old(limiter.View()).permits - {this};
    }
  }
}

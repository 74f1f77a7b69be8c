/** The per-step state updater and the elapsed-time gate of
    `useGameSimulation.ts`. `Math.random` draws are explicit inputs in `[0, 1)`. */
module Simulation {
  import opened Common
  import opened SimTypes
  import InitialState

  const SpawnPeriod: int := 60
  const MaxCustomers: int := 20

  // ---------------------------------------------------------------- ids

  function DigitChar(d: nat): (c: char)
    requires d < 10
    ensures '0' <= c <= '9' && (c as int) - ('0' as int) == d
  {
    (('0' as int) + d) as char
  }

  /** Decimal rendering of a natural number, as a template literal prints it. */
  function NatToString(n: nat): (s: string)
    ensures |s| >= 1 && forall i :: 0 <= i < |s| ==> '0' <= s[i] <= '9'
  {
    if n < 10 then [DigitChar(n)] else NatToString(n / 10) + [DigitChar(n % 10)]
  }

  /** Reads a string of decimal digits back as a number. */
  function ParseDigits(s: string): nat
    requires forall i :: 0 <= i < |s| ==> '0' <= s[i] <= '9'
  {
    if |s| == 0 then 0 else 10 * ParseDigits(s[..|s| - 1]) + ((s[|s| - 1] as int) - ('0' as int))
  }

  /** Printing a number in decimal loses nothing: parsing gives it back. */
  lemma {:induction false} ParseNatToString(n: nat)
    ensures ParseDigits(NatToString(n)) == n
  {
    if n >= 10 {
      var s := NatToString(n);
      assert s[..|s| - 1] == NatToString(n / 10);
      ParseNatToString(n / 10);
    }
  }

  const IdPrefix: string := "customer_"

  /** The id a customer spawned on tick `t` gets: `customer_${t}`. */
  function CustomerId(t: nat): string
  {
    IdPrefix + NatToString(t)
  }

  /** Distinct spawn ticks give distinct ids. */
  lemma CustomerIdInjective(a: nat, b: nat)
    ensures CustomerId(a) == CustomerId(b) <==> a == b
  {
    if CustomerId(a) == CustomerId(b) {
      assert CustomerId(a)[|IdPrefix|..] == NatToString(a);
      assert CustomerId(b)[|IdPrefix|..] == NatToString(b);
      ParseNatToString(a);
      ParseNatToString(b);
    }
  }

  // ---------------------------------------------------------------- step

  predicate IsDraw(r: real)
  {
    0.0 <= r < 1.0
  }

  /** `(Math.random() - 0.5) * 2`: a draw in `[0, 1)` becomes a nudge in `[-1, 1)`. */
  function Jitter(r: real): (d: real)
    ensures IsDraw(r) ==> -1.0 <= d < 1.0
    ensures d == 2.0 * r - 1.0
  {
    (r - 0.5) * 2.0
  }

  /** `kinds[Math.floor(Math.random() * 5)]`: the draw picks the kind whose
      fifth of `[0, 1)` it falls in. */
  function KindOf(r: real): (k: CustomerKind)
    requires IsDraw(r)
    ensures exists i :: 0 <= i < |CustomerKinds| && i as real <= 5.0 * r < (i + 1) as real && k == CustomerKinds[i]
  {
    var i := (r * 5.0).Floor;
    assert 0 <= i < 5;
    CustomerKinds[i]
  }

  /** The customer that enters on tick `t`. */
  function Newcomer(t: nat, kindDraw: real): (c: Customer)
    requires IsDraw(kindDraw)
    ensures c.id == CustomerId(t) && c.kind == KindOf(kindDraw)
    ensures forall t' :: t' != t ==> CustomerId(t') != c.id
    ensures c.x == 50.0 && c.y == 50.0 && c.satisfaction == 3.0 && !c.inQueue
    ensures c.kind in CustomerKinds
  {
    forall t': nat | t' != t
      ensures CustomerId(t') != CustomerId(t)
    {
      CustomerIdInjective(t', t);
    }
    Customer(CustomerId(t), 50.0, 50.0, KindOf(kindDraw), 3.0, false)
  }

  /** Random input of one step: an `(x, y)` draw pair per customer, in list
      order, then one draw for a newcomer's kind. Extra pairs go unused. */
  datatype StepDraws = StepDraws(pairs: seq<(real, real)>, kindDraw: real)

  predicate DrawsFor(d: StepDraws, population: nat)
  {
    population <= |d.pairs| && IsDraw(d.kindDraw) &&
    forall i :: 0 <= i < |d.pairs| ==> IsDraw(d.pairs[i].0) && IsDraw(d.pairs[i].1)
  }

  /** Whether the step that moves the clock to `newTick` admits a customer. */
  predicate Spawns(newTick: int, population: nat)
  {
    // The source's `%` truncates, Dafny's is Euclidean; both are zero
    // exactly on multiples of 60, which is all this test asks.
    newTick % SpawnPeriod == 0 && population < MaxCustomers
  }

  function Wander(cs: seq<Customer>, pairs: seq<(real, real)>): (r: seq<Customer>)
    requires |cs| <= |pairs|
    ensures |r| == |cs|
    ensures forall i :: 0 <= i < |cs| ==>
      r[i] == cs[i].(x := cs[i].x + Jitter(pairs[i].0), y := cs[i].y + Jitter(pairs[i].1))
    ensures forall i :: 0 <= i < |cs| && IsDraw(pairs[i].0) && IsDraw(pairs[i].1) ==>
      -1.0 <= r[i].x - cs[i].x < 1.0 && -1.0 <= r[i].y - cs[i].y < 1.0
  {
    if |cs| == 0 then [] else
      [cs[0].(x := cs[0].x + Jitter(pairs[0].0), y := cs[0].y + Jitter(pairs[0].1))] + Wander(cs[1..], pairs[1..])
  }

  /** The updater passed to `setGameState`: advance both clocks, nudge every
      customer, and every 60th tick let one more customer in while fewer
      than 20 are inside. */
  function Step(s: GameState, d: StepDraws): (r: GameState)
    requires s.tick >= 0
    requires DrawsFor(d, |s.customers|)
    ensures r.tick == s.tick + 1 && r.gameTime == s.gameTime + 1
    ensures r.employees == s.employees && r.cleanliness == s.cleanliness && r.reputation == s.reputation
    ensures |r.customers| == if Spawns(r.tick, |s.customers|) then |s.customers| + 1 else |s.customers|
    ensures r.customers[..|s.customers|] == Wander(s.customers, d.pairs)
    ensures forall i :: 0 <= i < |s.customers| ==>
      var (c, c') := (s.customers[i], r.customers[i]);
      c'.id == c.id && c'.kind == c.kind && c'.satisfaction == c.satisfaction && c'.inQueue == c.inQueue &&
      -1.0 <= c'.x - c.x < 1.0 && -1.0 <= c'.y - c.y < 1.0
    ensures Spawns(r.tick, |s.customers|) ==>
      var c := r.customers[|s.customers|];
      c.id == CustomerId(r.tick) && c.x == 50.0 && c.y == 50.0 && c.satisfaction == 3.0 && !c.inQueue &&
      c.kind == KindOf(d.kindDraw) && c.kind in CustomerKinds
  {
    var newTick := s.tick + 1;
    var moved := Wander(s.customers, d.pairs);
    var customers := if Spawns(newTick, |s.customers|) then moved + [Newcomer(newTick, d.kindDraw)] else moved;
    s.(tick := newTick, gameTime := s.gameTime + 1, customers := customers)
  }

  // ---------------------------------------------------------------- invariant

  /** What holds of every state reachable from the initial one: the clocks
      agree, the population is `min(tick div 60, 20)`, and the customer at
      position `i` arrived on tick `60 * (i + 1)`. */
  predicate Invariant(s: GameState)
  {
    s.tick >= 0 && s.gameTime == s.tick &&
    |s.customers| == Min(s.tick / SpawnPeriod, MaxCustomers) &&
    forall i :: 0 <= i < |s.customers| ==> s.customers[i].id == CustomerId(SpawnPeriod * (i + 1))
  }

  function Min(a: int, b: int): int
  {
    if a <= b then a else b
  }

  lemma InitialStateSatisfiesInvariant()
    ensures Invariant(InitialState.CreateInitialGameState())
  {
  }

  lemma {:induction false} StepPreservesInvariant(s: GameState, d: StepDraws)
    requires Invariant(s) && DrawsFor(d, |s.customers|)
    ensures Invariant(Step(s, d))
  {
    var r := Step(s, d);
    var n := |s.customers|;
    if Spawns(r.tick, n) {
      assert r.tick == SpawnPeriod * (n + 1);
    }
    forall i | 0 <= i < |r.customers|
      ensures r.customers[i].id == CustomerId(SpawnPeriod * (i + 1))
    {
      if i < n {
        assert r.customers[i].id == s.customers[i].id;
      }
    }
  }

  /** Under the invariant the population never exceeds 20 and ids are pairwise distinct. */
  lemma InvariantBoundsAndIds(s: GameState)
    requires Invariant(s)
    ensures |s.customers| <= MaxCustomers
    ensures forall i, j :: 0 <= i < j < |s.customers| ==> s.customers[i].id != s.customers[j].id
  {
    forall i, j | 0 <= i < j < |s.customers|
      ensures s.customers[i].id != s.customers[j].id
    {
      CustomerIdInjective(SpawnPeriod * (i + 1), SpawnPeriod * (j + 1));
    }
  }

  /** Steps applied one after another, each with its own draws. */
  function Run(s: GameState, ds: seq<StepDraws>): (r: GameState)
    requires Invariant(s)
    requires forall k :: 0 <= k < |ds| ==> DrawsFor(ds[k], MaxCustomers as nat)
    ensures Invariant(r) && r.tick == s.tick + |ds|
    ensures r.employees == s.employees && r.cleanliness == s.cleanliness && r.reputation == s.reputation
    decreases |ds|
  {
    if |ds| == 0 then s else
      InvariantBoundsAndIds(s);
      assert DrawsFor(ds[0], MaxCustomers as nat);
      StepPreservesInvariant(s, ds[0]);
      Run(Step(s, ds[0]), ds[1..])
  }

  /** From a new game, after `n` steps the store holds `min(n div 60, 20)`
      customers with distinct ids; one after 60 steps, twenty after 1200. */
  lemma PopulationFromStart(ds: seq<StepDraws>)
    requires forall k :: 0 <= k < |ds| ==> DrawsFor(ds[k], MaxCustomers as nat)
    ensures var r := Run(InitialState.CreateInitialGameState(), ds);
      |r.customers| == Min(|ds| / 60, 20) && |r.customers| <= 20 &&
      (|ds| == 60 ==> |r.customers| == 1) && (|ds| >= 1200 ==> |r.customers| == 20) &&
      (forall i, j :: 0 <= i < j < |r.customers| ==> r.customers[i].id != r.customers[j].id) &&
      r.employees == [] && r.cleanliness == 100.0 && r.reputation == 3.0
  {
    InitialStateSatisfiesInvariant();
    var r := Run(InitialState.CreateInitialGameState(), ds);
    InvariantBoundsAndIds(r);
  }

  // ---------------------------------------------------------------- gating

  const DefaultGameSpeed: real := 1.0

  /** `1000 / gameSpeed` milliseconds between steps. A speed of zero gives an
      infinite interval in the source, modelled as `None`: no step ever fires. */
  function TickInterval(speed: real): (r: Option<real>)
    ensures r.None? <==> speed == 0.0
    ensures r.Some? ==> r.value * speed == 1000.0
  {
    if speed == 0.0 then None else Some(1000.0 / speed)
  }

  lemma DefaultInterval()
    ensures TickInterval(DefaultGameSpeed) == Some(1000.0)
  {
  }

  /** A faster game steps at strictly shorter intervals. */
  lemma FasterIsShorter(slow: real, fast: real)
    requires 0.0 < slow < fast
    ensures TickInterval(fast).Some? && TickInterval(slow).Some?
    ensures TickInterval(fast).value < TickInterval(slow).value
  {
    var a, b := TickInterval(slow).value, TickInterval(fast).value;
    assert a * slow == 1000.0;
    assert b == 1000.0 / fast;
    assert b > 0.0;
    var gap := fast - slow;
    assert gap > 0.0;
    assert b * gap > 0.0;
    assert b * fast - b * slow == b * gap;
    assert b * fast == 1000.0;
    assert b * slow < b * fast;
    assert (a - b) * slow > 0.0;
  }

  /** Outcome of one animation frame's check: whether a step fires and the
      new value of `lastTickRef`. */
  datatype Gate = Gate(fires: bool, lastTick: real)

  /** The check inside `tick`: nothing while paused; otherwise a step fires
      exactly when `now - lastTick` reaches the interval, and only then does
      `lastTick` move to `now`. */
  function CheckTick(paused: bool, now: real, lastTick: real, speed: real): (g: Gate)
    ensures paused ==> !g.fires
    ensures !paused ==> (g.fires <==> TickInterval(speed).Some? && now - lastTick >= TickInterval(speed).value)
    ensures g.lastTick == if g.fires then now else lastTick
  {
    if paused then Gate(false, lastTick)
    else match TickInterval(speed)
      case None => Gate(false, lastTick)
      case Some(interval) => if now - lastTick >= interval then Gate(true, now) else Gate(false, lastTick)
  }

  /** Two checks in the same millisecond never both fire at a positive speed. */
  lemma NoDoubleStep(now: real, lastTick: real, speed: real)
    requires speed > 0.0
    requires CheckTick(false, now, lastTick, speed).fires
    ensures !CheckTick(false, now, CheckTick(false, now, lastTick, speed).lastTick, speed).fires
  {
    var i := TickInterval(speed).value;
    assert i * speed == 1000.0;
  }

  /** Whenever a slower game would step, a faster one steps too. */
  lemma FasterFiresWhenSlowerDoes(now: real, lastTick: real, slow: real, fast: real)
    requires 0.0 < slow < fast
    requires CheckTick(false, now, lastTick, slow).fires
    ensures CheckTick(false, now, lastTick, fast).fires
  {
    FasterIsShorter(slow, fast);
  }

  /** One animation frame of the running simulation: either the state
      advances by exactly one tick and the clock moves to `now`, or nothing
      changes at all; reachable states stay reachable. */
  function Frame(s: GameState, paused: bool, now: real, lastTick: real, speed: real, d: StepDraws): (r: (GameState, real))
    requires s.tick >= 0 && DrawsFor(d, |s.customers|)
    ensures r.0.tick == s.tick + 1 <==> CheckTick(paused, now, lastTick, speed).fires
    ensures CheckTick(paused, now, lastTick, speed).fires ==> r == (Step(s, d), now)
    ensures r.0.tick == s.tick + 1 ==> r.1 == now
    ensures r.0.tick != s.tick + 1 ==> r == (s, lastTick)
    ensures Invariant(s) ==> Invariant(r.0)
  {
    var g := CheckTick(paused, now, lastTick, speed);
    if g.fires then
      StepPreservesInvariantIfReachable(s, d);
      (Step(s, d), g.lastTick)
    else (s, g.lastTick)
  }

  lemma StepPreservesInvariantIfReachable(s: GameState, d: StepDraws)
    requires s.tick >= 0 && DrawsFor(d, |s.customers|)
    ensures Invariant(s) ==> Invariant(Step(s, d))
  {
    if Invariant(s) {
      StepPreservesInvariant(s, d);
    }
  }

  /** A paused game's frames change neither the state nor the clock. */
  lemma PausedFrameIsIdle(s: GameState, now: real, lastTick: real, speed: real, d: StepDraws)
    requires s.tick >= 0 && DrawsFor(d, |s.customers|)
    ensures Frame(s, true, now, lastTick, speed, d) == (s, lastTick)
  {
  }
}

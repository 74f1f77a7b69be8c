/** The image cache of the renderer (`assetLoader.ts`) as an event-driven
    state machine. The module-level `cachedAssets` and `loadingPromise`
    become fields of a `Loader` value; a call of `loadAssets` and the
    settling of the eight-image load are the two kinds of event. Loads are
    numbered in the order they start. */
module AssetLoader {
  import opened Common

  /** A decoded image; its pixels play no part in the cache logic. */
  type Image = nat

  datatype GameAssets = GameAssets(
    tileset: Image,
    departmentCounters: Image,
    uiIcons: Image,
    aisleShelves: Image,
    floor: Image,
    checkoutRegisters: Image,
    customerSprites: Image,
    employeeSprites: Image)

  /** The eight files fetched together, in the order of the `Promise.all` array. */
  const AssetPaths: seq<string> := [
    "/assets/generated/hsm-tileset.dim_2048x2048.png",
    "/assets/generated/department-counters.dim_1024x1024.png",
    "/assets/generated/hsm-ui-icons.dim_1024x1024.png",
    "/assets/generated/aisle-shelves-tileset.dim_1024x1024.png",
    "/assets/generated/supermarket-floor.dim_512x512.png",
    "/assets/generated/checkout-registers.dim_1024x512.png",
    "/assets/generated/customers-sprites.dim_1024x1024.png",
    "/assets/generated/employees-sprites.dim_1024x1024.png"
  ]

  /** The record's fields in declaration order. */
  function Fields(a: GameAssets): (imgs: seq<Image>)
    ensures |imgs| == |AssetPaths|
  {
    [a.tileset, a.departmentCounters, a.uiIcons, a.aisleShelves,
     a.floor, a.checkoutRegisters, a.customerSprites, a.employeeSprites]
  }

  /** Builds the record from the eight loaded images, positionally. */
  function Assemble(imgs: seq<Image>): GameAssets
    requires |imgs| == |AssetPaths|
  {
    GameAssets(imgs[0], imgs[1], imgs[2], imgs[3], imgs[4], imgs[5], imgs[6], imgs[7])
  }

  /** Assembling is a bijection between eight-image lists and records. */
  lemma AssembleFields(a: GameAssets, imgs: seq<Image>)
    requires |imgs| == |AssetPaths|
    ensures Assemble(Fields(a)) == a
    ensures Fields(Assemble(imgs)) == imgs
  {
  }

  /** `cached` is `cachedAssets`; `loadingPromise` is the number of the load
      whose promise `loadingPromise` holds; `pending` says that promise has
      not settled yet. `started` and `failures` count loads begun and loads
      rejected so far (bookkeeping for the lemmas, not state of the source). */
  datatype Loader = Loader(cached: Option<GameAssets>, loadingPromise: Option<nat>, pending: bool, started: nat, failures: nat)

  /** Module load: both references are `null`. */
  const Initial: Loader := Loader(None, None, false, 0, 0)

  /** What a call of `loadAssets` hands back: the cached record at once, or
      the promise of load number `load`. */
  datatype Reply = Cached(assets: GameAssets) | Awaits(load: nat)

  /** One call of `loadAssets`: the cache wins, then the in-flight promise;
      only with neither is a new load started and recorded. */
  function LoadAssets(st: Loader): (res: (Loader, Reply))
    ensures st.cached.Some? ==> res == (st, Cached(st.cached.value))
    ensures st.cached.None? && st.loadingPromise.Some? ==> res == (st, Awaits(st.loadingPromise.value))
    ensures st.cached.None? && st.loadingPromise.None? ==>
      res.1 == Awaits(st.started) && res.0.loadingPromise == Some(st.started) && res.0.pending &&
      res.0.started == st.started + 1 && res.0.cached.None? && res.0.failures == st.failures
  {
    if st.cached.Some? then (st, Cached(st.cached.value))
    else if st.loadingPromise.Some? then (st, Awaits(st.loadingPromise.value))
    else (st.(loadingPromise := Some(st.started), pending := true, started := st.started + 1), Awaits(st.started))
  }

  predicate AllLoaded(results: seq<Option<Image>>)
  {
    forall k :: 0 <= k < |results| ==> results[k].Some?
  }

  function Values(results: seq<Option<Image>>): (imgs: seq<Image>)
    requires AllLoaded(results)
    ensures |imgs| == |results| && forall k :: 0 <= k < |results| ==> results[k] == Some(imgs[k])
  {
    if results == [] then [] else [results[0].value] + Values(results[1..])
  }

  /** The pending load settles with one outcome per file (`None` for a file
      that failed). `Promise.all` fulfils only when every file loaded; then
      the cache is filled and `loadingPromise` is left as it is. Any failure
      rejects the whole load and clears `loadingPromise`. With no pending
      load nothing settles. */
  function Settle(st: Loader, results: seq<Option<Image>>): (st': Loader)
    requires |results| == |AssetPaths|
    ensures !st.pending ==> st' == st
    ensures !st'.pending && st'.started == st.started
    ensures st.pending && AllLoaded(results) ==>
      st'.cached.Some? && Fields(st'.cached.value) == Values(results) &&
      st'.loadingPromise == st.loadingPromise && st'.failures == st.failures
    ensures st.pending && !AllLoaded(results) ==>
      st'.cached == st.cached && st'.loadingPromise.None? && st'.failures == st.failures + 1
  {
    if !st.pending then st
    else if AllLoaded(results) then
      st.(cached := Some(Assemble(Values(results))), pending := false)
    else
      st.(loadingPromise := None, pending := false, failures := st.failures + 1)
  }

  /** `getAssets`: the cache, whatever its state. */
  function GetAssets(st: Loader): (r: Option<GameAssets>)
    ensures r.Some? <==> st.cached.Some?
    ensures r.Some? ==> r.value == st.cached.value
  {
    st.cached
  }

  /** The states reachable from `Initial`: a record is cached only with a
      settled promise in place; a pending load is the latest one started and
      nothing is cached meanwhile; every load started has either failed or
      is the one `loadingPromise` refers to. */
  predicate Invariant(st: Loader)
  {
    (st.cached.Some? ==> st.loadingPromise.Some? && !st.pending) &&
    (st.pending ==> st.cached.None? && st.loadingPromise.Some?) &&
    (st.loadingPromise.Some? ==> st.loadingPromise.value + 1 == st.started) &&
    (st.cached.None? && st.loadingPromise.Some? ==> st.pending) &&
    st.started == st.failures + (if st.loadingPromise.Some? then 1 else 0)
  }

  datatype Event = Call | Done(results: seq<Option<Image>>)

  predicate WellFormed(e: Event)
  {
    e.Done? ==> |e.results| == |AssetPaths|
  }

  function Apply(st: Loader, e: Event): Loader
    requires WellFormed(e)
  {
    match e
    case Call => LoadAssets(st).0
    case Done(results) => Settle(st, results)
  }

  function Run(st: Loader, es: seq<Event>): Loader
    requires forall k :: 0 <= k < |es| ==> WellFormed(es[k])
    decreases |es|
  {
    if es == [] then st else Run(Apply(st, es[0]), es[1..])
  }

  lemma InitialSatisfiesInvariant()
    ensures Invariant(Initial)
  {
  }

  /** Every event keeps the invariant. */
  lemma ApplyPreservesInvariant(st: Loader, e: Event)
    requires Invariant(st) && WellFormed(e)
    ensures Invariant(Apply(st, e))
  {
  }

  /** Any run from a reachable state ends in a reachable state. */
  lemma {:induction false} RunPreservesInvariant(st: Loader, es: seq<Event>)
    requires Invariant(st)
    requires forall k :: 0 <= k < |es| ==> WellFormed(es[k])
    ensures Invariant(Run(st, es))
    decreases |es|
  {
    if es != [] {
      ApplyPreservesInvariant(st, es[0]);
      RunPreservesInvariant(Apply(st, es[0]), es[1..]);
    }
  }

  /** Once a record is cached every later event keeps it, and every later
      call returns it. */
  lemma {:induction false} CacheIsPermanent(st: Loader, es: seq<Event>)
    requires Invariant(st) && st.cached.Some?
    requires forall k :: 0 <= k < |es| ==> WellFormed(es[k])
    ensures Run(st, es) == st
    ensures LoadAssets(Run(st, es)).1 == Cached(st.cached.value)
    decreases |es|
  {
    if es != [] {
      CacheIsPermanent(Apply(st, es[0]), es[1..]);
    }
  }

  /** In the reachable states at most one load is ever in flight, and with no
      failure at most one load has ever been started. */
  lemma AtMostOneLoad(st: Loader)
    requires Invariant(st)
    ensures st.started <= st.failures + 1
    ensures st.failures == 0 ==> st.started <= 1
    ensures st.pending ==> st.loadingPromise == Some(st.started - 1)
  {
  }

  /** A failed load leaves the cache empty and nothing in flight, so the next
      call starts a fresh load. */
  lemma RetryAfterFailure(st: Loader, results: seq<Option<Image>>)
    requires Invariant(st) && st.pending
    requires |results| == |AssetPaths| && !AllLoaded(results)
    ensures var after := Settle(st, results);
      after.cached.None? &&
      LoadAssets(after).1 == Awaits(st.started) &&
      LoadAssets(after).0.started == st.started + 1
  {
  }

  /** A load succeeds only with all eight images, and the cached record is
      exactly those images in the order of `AssetPaths`; a single missing
      image leaves the cache empty. */
  lemma AllOrNothing(st: Loader, results: seq<Option<Image>>)
    requires Invariant(st) && st.pending && |results| == |AssetPaths|
    ensures Settle(st, results).cached.Some? <==> AllLoaded(results)
    ensures AllLoaded(results) ==> Settle(st, results).cached == Some(Assemble(Values(results)))
  {
  }

  /** `getAssets` reports nothing until a load has succeeded and the cached
      record from then on. */
  lemma GetAssetsAfterSuccess(st: Loader, results: seq<Option<Image>>)
    requires Invariant(st) && st.pending && |results| == |AssetPaths|
    ensures GetAssets(st).None?
    ensures AllLoaded(results) ==> GetAssets(Settle(st, results)) == Some(Assemble(Values(results)))
  {
  }

  /** `n` calls of `loadAssets` in a row. */
  function Calls(st: Loader, n: nat): (res: (Loader, seq<Reply>))
    ensures |res.1| == n
    decreases n
  {
    if n == 0 then (st, [])
    else
      var (st1, r) := LoadAssets(st);
      var (st2, rs) := Calls(st1, n - 1);
      (st2, [r] + rs)
  }

  /** Any number of calls from a fresh module start exactly one load, and
      every caller is handed that same load. */
  lemma {:induction false} ConcurrentCallsShareOneLoad(n: nat)
    requires n >= 1
    ensures Calls(Initial, n).0.started == 1
    ensures forall k :: 0 <= k < n ==> Calls(Initial, n).1[k] == Awaits(0)
  {
    var st1 := LoadAssets(Initial).0;
    JoinersShareLoad(st1, n - 1);
  }

  /** With nothing cached and a load in flight, calls change nothing and all
      join that load. */
  lemma {:induction false} JoinersShareLoad(st: Loader, n: nat)
    requires st.cached.None? && st.loadingPromise.Some?
    ensures Calls(st, n).0 == st
    ensures forall k :: 0 <= k < n ==> Calls(st, n).1[k] == Awaits(st.loadingPromise.value)
    decreases n
  {
    if n > 0 {
      JoinersShareLoad(st, n - 1);
    }
  }
}

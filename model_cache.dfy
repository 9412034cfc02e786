/**
 * The single-slot model cache: `functools.lru_cache(maxsize=1)` around the
 * model loader of the service (`_load_model_cached`) and of the MMM package
 * (`load_mmm_model`). The slot is keyed by the path; a hit hands back the
 * cached object itself, a miss runs the loader, and a loader that raises
 * leaves the slot as it was, so the next call runs the loader again.
 */
module ModelCache {
  import opened Py
  import opened Artifact

  /** The slot (path and value), and the counters `cache_info()` reports. */
  datatype Cache<V> = Cache(slot: Option<(string, V)>, hits: nat, misses: nat)

  /** A fresh cache, and the state `cache_clear()` leaves. */
  function EmptyCache<V>(): Cache<V>
  {
    Cache(None, 0, 0)
  }

  /** The slot holds the value for `key`. */
  predicate IsHit<V>(c: Cache<V>, key: string)
  {
    c.slot.Some? && c.slot.value.0 == key
  }

  /** The number of entries `cache_info().currsize` reports. */
  function CurrSize<V>(c: Cache<V>): (n: nat)
    ensures n <= 1
    ensures n == 0 <==> c.slot.None?
  {
    if c.slot.Some? then 1 else 0
  }

  /**
   * One call of the cached function with argument `key`, where `load` is
   * what the wrapped function returns or raises if it runs: a hit answers
   * from the slot and counts a hit; a miss counts a miss, runs the loader and
   * keeps its value only when it returned one.
   */
  function Call<V>(c: Cache<V>, key: string, load: Result<V>): (r: (Cache<V>, Result<V>))
    ensures r.0.hits + r.0.misses == c.hits + c.misses + 1
    ensures r.1.Err? ==> r.0.slot == c.slot
  {
    if IsHit(c, key) then (c.(hits := c.hits + 1), Ok(c.slot.value.1))
    else
      var c' := c.(misses := c.misses + 1);
      match load
      case Ok(v) => (c'.(slot := Some((key, v))), Ok(v))
      case Err(e) => (c', Err(e))
  }

  /** A sequence of calls, each with its key and what the loader would do. */
  function Run<V>(c: Cache<V>, calls: seq<(string, Result<V>)>): (r: Cache<V>)
    ensures r.hits >= c.hits && r.misses >= c.misses
    ensures r.slot == c.slot
      || exists k :: 0 <= k < |calls| && calls[k].1.Ok? && r.slot == Some((calls[k].0, calls[k].1.value))
    decreases |calls|
  {
    if calls == [] then c
    else
      assert forall k :: 0 <= k < |calls| - 1 ==> calls[1..][k] == calls[k + 1];
      Run(Call(c, calls[0].0, calls[0].1).0, calls[1..])
  }

  /**
   * Once a call for `key` has returned a value, the next call for `key`
   * returns that very value without running the loader, whatever the
   * loader would have done, and counts one hit.
   */
  lemma CachedValueReturned<V>(c: Cache<V>, key: string, first: Result<V>, second: Result<V>)
    requires Call(c, key, first).1.Ok?
    ensures var (c1, r1) := Call(c, key, first);
      var (c2, r2) := Call(c1, key, second);
      r2 == r1 && c2.hits == c1.hits + 1 && c2.misses == c1.misses && c2.slot == c1.slot
  {
  }

  /**
   * A loader that raises is not cached: when the slot did not hold `key`,
   * the next call for `key` is a miss again and answers whatever the loader
   * answers then.
   */
  lemma FailureRetried<V>(c: Cache<V>, key: string, first: Result<V>, second: Result<V>)
    requires !IsHit(c, key) && first.Err?
    ensures var (c1, r1) := Call(c, key, first);
      var (c2, r2) := Call(c1, key, second);
      r1 == first && r2 == second && c2.misses == c.misses + 2 && c2.hits == c.hits
  {
  }

  /** After `cache_clear()` both counters are 0 and the next call is a miss. */
  lemma ClearForcesReload<V>(c: Cache<V>, key: string, load: Result<V>)
    ensures var (c1, r1) := Call(EmptyCache<V>(), key, load);
      r1 == load && c1.hits == 0 && c1.misses == 1
  {
  }

  /** Every call counts exactly one hit or one miss. */
  lemma {:induction false} RunCounts<V>(c: Cache<V>, calls: seq<(string, Result<V>)>)
    ensures Run(c, calls).hits + Run(c, calls).misses == c.hits + c.misses + |calls|
    decreases |calls|
  {
    if calls != [] {
      RunCounts(Call(c, calls[0].0, calls[0].1).0, calls[1..]);
    }
  }

  predicate AllKey<V>(calls: seq<(string, Result<V>)>, key: string)
  {
    forall k :: 0 <= k < |calls| ==> calls[k].0 == key
  }

  /**
   * Any number of calls for one path, once the slot holds that path, are all
   * hits: the loader runs no more.
   */
  lemma {:induction false} RunOnCachedKey<V>(c: Cache<V>, key: string, calls: seq<(string, Result<V>)>)
    requires IsHit(c, key) && AllKey(calls, key)
    ensures Run(c, calls) == c.(hits := c.hits + |calls|)
    decreases |calls|
  {
    if calls != [] {
      var c1 := Call(c, key, calls[0].1).0;
      assert AllKey(calls[1..], key) by {
        forall k | 0 <= k < |calls| - 1 ensures calls[1..][k].0 == key {
          assert calls[1..][k] == calls[k + 1];
        }
      }
      RunOnCachedKey(c1, key, calls[1..]);
    }
  }

  /**
   * Repeated calls for one path whose first load succeeds run the loader
   * once: at most one miss is added, and none when the path was cached.
   */
  lemma LoadsOnce<V>(c: Cache<V>, key: string, calls: seq<(string, Result<V>)>)
    requires |calls| > 0 && AllKey(calls, key) && calls[0].1.Ok?
    ensures Run(c, calls).misses == c.misses + (if IsHit(c, key) then 0 else 1)
    ensures Run(c, calls).hits == c.hits + |calls| - (if IsHit(c, key) then 0 else 1)
    ensures IsHit(Run(c, calls), key)
  {
    var c1 := Call(c, key, calls[0].1).0;
    assert AllKey(calls[1..], key) by {
      forall k | 0 <= k < |calls| - 1 ensures calls[1..][k].0 == key {
        assert calls[1..][k] == calls[k + 1];
      }
    }
    RunOnCachedKey(c1, key, calls[1..]);
  }

  // ---------------------------------------------------------------------
  // The cache around the model loader

  /** A loaded model object: two answers are the same object exactly when they are the same reference. */
  class ModelObject {
    const model: Model

    constructor (m: Model)
      ensures model == m
    {
      model := m;
    }
  }

  /** What the filesystem and the Meridian package make of a load. */
  datatype LoadOutcome =
    | FileMissing              // the path does not exist
    | Loaded(model: Model)     // `load_mmm` returned this model
    | MeridianUnavailable      // importing `load_mmm` raised ImportError
    | LoadFailed(msg: string)  // `load_mmm` raised anything else

  /**
   * The body of the cached function: a missing file and a failing load are
   * MMMModelErrors; an ImportError gives the fallback model.
   */
  function LoadModel(path: string, outcome: LoadOutcome, fallback: Model): (r: Result<Model>)
    ensures r.Ok? <==> outcome.Loaded? || outcome.MeridianUnavailable?
    ensures outcome.Loaded? ==> r == Ok(outcome.model)
    ensures outcome.MeridianUnavailable? ==> r == Ok(fallback)
    ensures r.Err? ==> r.error.MMMModelError?
    ensures outcome.FileMissing? ==> r == Err(MMMModelError("MMM model file not found at " + path))
    ensures outcome.LoadFailed? ==> r == Err(MMMModelError("Failed to load MMM model: " + outcome.msg))
  {
    match outcome
    case FileMissing => Err(MMMModelError("MMM model file not found at " + path))
    case Loaded(m) => Ok(m)
    case MeridianUnavailable => Ok(fallback)
    case LoadFailed(msg) => Err(MMMModelError("Failed to load MMM model: " + msg))
  }

  /**
   * The cached loader: `state` is the lru_cache's slot and counters;
   * `fallback` is the model the ImportError branch builds.
   */
  class CachedLoader {
    var state: Cache<ModelObject>
    const fallback: Model

    constructor (fallback: Model)
      ensures state == EmptyCache() && this.fallback == fallback
    {
      state := EmptyCache();
      this.fallback := fallback;
    }

    /**
     * Calling the cached loader for `path`. On a hit the cached object comes
     * back and nothing is loaded; on a miss the loader runs, a new object is
     * returned and cached, or the error is raised and nothing is cached.
     */
    method Load(path: string, outcome: LoadOutcome) returns (r: Result<ModelObject>)
      modifies this
      ensures IsHit(old(state), path) ==>
        r == Ok(old(state).slot.value.1) && state == old(state).(hits := old(state).hits + 1)
      ensures !IsHit(old(state), path) ==>
        var loaded := LoadModel(path, outcome, fallback);
        (r.Ok? <==> loaded.Ok?)
        && (r.Ok? ==> fresh(r.value) && r.value.model == loaded.value)
        && (r.Err? ==> r.error == loaded.error)
      ensures (state, r) == Call(old(state), path, r)
    {
      if IsHit(state, path) {
        r := Ok(state.slot.value.1);
        state := state.(hits := state.hits + 1);
      } else {
        match LoadModel(path, outcome, fallback) {
          case Ok(m) =>
            var obj := new ModelObject(m);
            r := Ok(obj);
          case Err(e) =>
            r := Err(e);
        }
        state := Call(state, path, r).0;
      }
    }

    /** `cache_clear()`: empties the slot and resets both counters. */
    method Clear()
      modifies this
      ensures state == EmptyCache()
    {
      state := EmptyCache();
    }

    /** `cache_info()`: hits, misses and the current size. */
    function Info(): (info: (nat, nat, nat))
      reads this
      ensures info.2 <= 1
    {
      (state.hits, state.misses, CurrSize(state))
    }
  }
}

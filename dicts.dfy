/**
 * Python dictionaries with string keys as the processors fill them: the keys
 * in insertion order and the value of each. Assigning to a key that is
 * already present replaces its value and keeps its position.
 */
module Dicts {
  import opened Py

  datatype Dict<V> = Dict(keys: seq<string>, values: map<string, V>)
  {
    /** The keys are distinct and are exactly the keys of the value map. */
    predicate Valid()
    {
      Distinct(keys) && (forall k :: k in values ==> k in keys) && (forall k :: k in keys ==> k in values)
    }
  }

  function EmptyDict<V>(): (d: Dict<V>)
    ensures d.Valid() && d.keys == []
  {
    Dict([], map[])
  }

  /** `d[k] = v`: a new key goes last, a present one keeps its place. */
  function Put<V>(d: Dict<V>, k: string, v: V): Dict<V>
  {
    if k in d.values then Dict(d.keys, d.values[k := v])
    else Dict(d.keys + [k], d.values[k := v])
  }

  /** Assignment keeps a dict's keys distinct and in step with its values. */
  lemma PutValid<V>(d: Dict<V>, k: string, v: V)
    requires d.Valid()
    ensures Put(d, k, v).Valid()
  {
    if k !in d.values {
      assert k !in d.keys;
    }
  }

  /** `list(d.values())`: the values in key order. */
  function Values<V>(d: Dict<V>): (vs: seq<V>)
    requires d.Valid()
    ensures |vs| == |d.keys| && forall i :: 0 <= i < |vs| ==> vs[i] == d.values[d.keys[i]]
  {
    seq(|d.keys|, i requires 0 <= i < |d.keys| => d.values[d.keys[i]])
  }

  /** `next(iter(d.values()))`: the value of the first key. */
  function FirstValue<V>(d: Dict<V>): (v: V)
    requires d.Valid() && d.keys != []
    ensures v == d.values[d.keys[0]]
  {
    d.values[d.keys[0]]
  }

  /**
   * `for i, k in enumerate(keys): d[k] = f(i)` over the first `n` keys,
   * starting from an empty dict; the first error `f` raises ends the loop.
   */
  function PutAll<V>(keys: seq<string>, f: nat -> Result<V>, n: nat): Result<Dict<V>>
    requires n <= |keys|
  {
    if n == 0 then Ok(EmptyDict())
    else
      var prev := PutAll(keys, f, n - 1);
      if prev.Err? then prev
      else if f(n - 1).Err? then Err(f(n - 1).error)
      else Ok(Put(prev.value, keys[n - 1], f(n - 1).value))
  }

  /**
   * The loop `for i, k in enumerate(keys): d[k] = f(i)`, run over every key;
   * it gives up with the first error `f` raises.
   */
  method PutEach<V>(keys: seq<string>, f: nat -> Result<V>) returns (r: Result<Dict<V>>)
    ensures r == PutAll(keys, f, |keys|)
  {
    var d: Dict<V> := EmptyDict();
    var i := 0;
    while i < |keys|
      invariant 0 <= i <= |keys|
      invariant PutAll(keys, f, i) == Ok(d)
    {
      PutAllStep(keys, f, i, d);
      var v := f(i);
      if v.Err? {
        PutAllErrorPersists(keys, f, i + 1, |keys|);
        return Err(v.error);
      }
      d := Put(d, keys[i], v.value);
      i := i + 1;
    }
    r := Ok(d);
  }

  /** One turn of the loop at position `i`, from the dict filled so far. */
  lemma PutAllStep<V>(keys: seq<string>, f: nat -> Result<V>, i: nat, d: Dict<V>)
    requires i < |keys| && PutAll(keys, f, i) == Ok(d)
    ensures f(i).Err? ==> PutAll(keys, f, i + 1) == Err(f(i).error)
    ensures f(i).Ok? ==> PutAll(keys, f, i + 1) == Ok(Put(d, keys[i], f(i).value))
  {
  }

  /** The dict the loop fills keeps its keys distinct and in step with its values. */
  lemma {:induction false} PutAllValid<V>(keys: seq<string>, f: nat -> Result<V>, n: nat)
    requires n <= |keys|
    ensures PutAll(keys, f, n).Ok? ==> PutAll(keys, f, n).value.Valid()
  {
    if n > 0 {
      PutAllValid(keys, f, n - 1);
      var prev := PutAll(keys, f, n - 1);
      if prev.Ok? && f(n - 1).Ok? {
        PutValid(prev.value, keys[n - 1], f(n - 1).value);
      }
    }
  }

  /** Once `f` has raised, the loop ends with that error. */
  lemma {:induction false} PutAllErrorPersists<V>(keys: seq<string>, f: nat -> Result<V>, i: nat, n: nat)
    requires i <= n <= |keys| && PutAll(keys, f, i).Err?
    ensures PutAll(keys, f, n) == PutAll(keys, f, i)
  {
    if i < n {
      PutAllErrorPersists(keys, f, i, n - 1);
    }
  }

  /** With distinct keys, the dict's keys are the keys visited, in order. */
  lemma {:induction false} PutAllKeys<V>(keys: seq<string>, f: nat -> Result<V>, n: nat)
    requires n <= |keys| && Distinct(keys)
    ensures var r := PutAll(keys, f, n);
      r.Ok? ==> r.value.keys == keys[..n]
  {
    if n > 0 {
      PutAllKeys(keys, f, n - 1);
      PutAllValid(keys, f, n - 1);
      var prev := PutAll(keys, f, n - 1);
      if prev.Ok? && f(n - 1).Ok? {
        var last := keys[n - 1];
        forall j | 0 <= j < n - 1 ensures keys[j] != last {
          assert keys[j] != keys[n - 1];
        }
        assert last !in prev.value.keys;
        assert last !in prev.value.values;
        assert keys[..n] == prev.value.keys + [last];
      }
    }
  }

  /** With distinct keys, every key visited holds the value computed at its position. */
  lemma {:induction false} PutAllValues<V>(keys: seq<string>, f: nat -> Result<V>, n: nat)
    requires n <= |keys| && Distinct(keys)
    ensures var r := PutAll(keys, f, n);
      r.Ok? ==> forall k :: 0 <= k < n ==> keys[k] in r.value.values && f(k) == Ok(r.value.values[keys[k]])
  {
    if n > 0 {
      PutAllValues(keys, f, n - 1);
      var prev := PutAll(keys, f, n - 1);
      if prev.Ok? && f(n - 1).Ok? {
        var r := Put(prev.value, keys[n - 1], f(n - 1).value);
        forall k | 0 <= k < n - 1 ensures keys[k] in r.values && f(k) == Ok(r.values[keys[k]]) {
          assert keys[k] != keys[n - 1];
        }
      }
    }
  }

  /** With distinct keys, the dict holds every key in order with the value computed at its position. */
  lemma PutAllDistinct<V>(keys: seq<string>, f: nat -> Result<V>, n: nat)
    requires n <= |keys| && Distinct(keys)
    ensures var r := PutAll(keys, f, n);
      r.Ok? ==> (r.value.keys == keys[..n]
                 && forall k :: 0 <= k < n ==> keys[k] in r.value.values && f(k) == Ok(r.value.values[keys[k]]))
  {
    PutAllKeys(keys, f, n);
    PutAllValues(keys, f, n);
  }
  /** The distinct elements of `xs` in the order in which each first occurs. */
  function FirstOccurrences(xs: seq<string>): (r: seq<string>)
    ensures Distinct(r)
    ensures forall x :: x in r <==> x in xs
  {
    if xs == [] then []
    else
      var prev := FirstOccurrences(xs[..|xs| - 1]);
      var last := xs[|xs| - 1];
      assert xs == xs[..|xs| - 1] + [last];
      if last in prev then prev else prev + [last]
  }

  /** A sequence without repeats is its own list of first occurrences. */
  lemma {:induction false} FirstOccurrencesOfDistinct(xs: seq<string>)
    requires Distinct(xs)
    ensures FirstOccurrences(xs) == xs
  {
    if xs != [] {
      FirstOccurrencesOfDistinct(xs[..|xs| - 1]);
      DistinctLastFresh(xs, |xs|);
    }
  }

  /**
   * Whatever the repeats among the keys, the dict the loop fills has as its
   * keys each key visited once, in the order of its first visit.
   */
  lemma {:induction false} PutAllFirstOccurrences<V>(keys: seq<string>, f: nat -> Result<V>, n: nat)
    requires n <= |keys|
    ensures var r := PutAll(keys, f, n);
      r.Ok? ==> r.value.keys == FirstOccurrences(keys[..n])
  {
    if n > 0 {
      PutAllFirstOccurrences(keys, f, n - 1);
      PutAllValid(keys, f, n - 1);
      assert keys[..n][..n - 1] == keys[..n - 1];
    }
  }

  /** The dict the loop fills holds exactly the keys visited. */
  lemma {:induction false} PutAllMembers<V>(keys: seq<string>, f: nat -> Result<V>, n: nat)
    requires n <= |keys|
    ensures var r := PutAll(keys, f, n);
      r.Ok? ==> forall k :: k in r.value.values <==> k in keys[..n]
  {
    if n > 0 {
      PutAllMembers(keys, f, n - 1);
      assert keys[..n] == keys[..n - 1] + [keys[n - 1]];
    }
  }

  /**
   * When the value computed at each position depends only on the key there
   * and never raises, the loop succeeds and every key holds its value,
   * repeated keys included.
   */
  lemma {:induction false} PutAllByKey<V>(keys: seq<string>, f: nat -> Result<V>, g: string -> V, n: nat)
    requires n <= |keys| && forall i :: 0 <= i < n ==> f(i) == Ok(g(keys[i]))
    ensures var r := PutAll(keys, f, n);
      r.Ok? && forall k :: k in r.value.values ==> r.value.values[k] == g(k)
  {
    if n > 0 {
      PutAllByKey(keys, f, g, n - 1);
    }
  }
}

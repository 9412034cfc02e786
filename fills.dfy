/**
 * The loop both data processors run to fill their `data` and `summary`
 * dictionaries: over the model's channel names, each selected name gets the
 * pair of values computed at its position, and the first error raised ends
 * the loop.
 */
module Fills {
  import opened Py
  import opened Dicts

  /**
   * The dictionaries after the loop `for i, ch in enumerate(names): if ch in
   * targets: data[ch], summary[ch] = f(i)` has run over the first `n` names,
   * or the first error `f` raised.
   */
  function Fill<A, B>(names: seq<string>, targets: seq<string>, f: nat -> Result<(A, B)>, n: nat)
    : Result<(Dict<A>, Dict<B>)>
    requires n <= |names|
  {
    if n == 0 then Ok((EmptyDict(), EmptyDict()))
    else
      var prev := Fill(names, targets, f, n - 1);
      if prev.Err? || names[n - 1] !in targets then prev
      else if f(n - 1).Err? then Err(f(n - 1).error)
      else Ok((Put(prev.value.0, names[n - 1], f(n - 1).value.0), Put(prev.value.1, names[n - 1], f(n - 1).value.1)))
  }

  /** Both dictionaries stay valid and share their keys in the same order. */
  lemma {:induction false} FillValid<A, B>(names: seq<string>, targets: seq<string>, f: nat -> Result<(A, B)>, n: nat)
    requires n <= |names|
    ensures var r := Fill(names, targets, f, n);
      r.Ok? ==> r.value.0.Valid() && r.value.1.Valid() && r.value.0.keys == r.value.1.keys
  {
    if n > 0 {
      FillValid(names, targets, f, n - 1);
      var prev := Fill(names, targets, f, n - 1);
      if prev.Ok? && names[n - 1] in targets && f(n - 1).Ok? {
        PutValid(prev.value.0, names[n - 1], f(n - 1).value.0);
        PutValid(prev.value.1, names[n - 1], f(n - 1).value.1);
      }
    }
  }

  /** One turn of the loop at position `i`, from the dictionaries filled so far. */
  lemma FillStep<A, B>(names: seq<string>, targets: seq<string>, f: nat -> Result<(A, B)>, i: nat,
                 acc: (Dict<A>, Dict<B>))
    requires i < |names| && Fill(names, targets, f, i) == Ok(acc)
    ensures names[i] !in targets ==> Fill(names, targets, f, i + 1) == Ok(acc)
    ensures names[i] in targets && f(i).Err? ==> Fill(names, targets, f, i + 1) == Err(f(i).error)
    ensures names[i] in targets && f(i).Ok? ==>
      Fill(names, targets, f, i + 1) == Ok((Put(acc.0, names[i], f(i).value.0), Put(acc.1, names[i], f(i).value.1)))
  {
  }

  /**
   * The loop `for i, ch in enumerate(names): if ch in targets: data[ch],
   * summary[ch] = f(i)`, run over every name; it gives up with the first
   * error `f` raises.
   */
  method FillEach<A, B>(names: seq<string>, targets: seq<string>, f: nat -> Result<(A, B)>)
    returns (r: Result<(Dict<A>, Dict<B>)>)
    ensures r == Fill(names, targets, f, |names|)
  {
    var acc: (Dict<A>, Dict<B>) := (EmptyDict(), EmptyDict());
    var i := 0;
    while i < |names|
      invariant 0 <= i <= |names|
      invariant Fill(names, targets, f, i) == Ok(acc)
    {
      var next := FillTurn(names, targets, f, i, acc);
      if next.Err? {
        FillErrorPersists(names, targets, f, i + 1, |names|);
        return next;
      }
      acc := next.value;
      i := i + 1;
    }
    r := Ok(acc);
  }

  /** The body of the loop for the name at position `i`: `if ch in targets: data[ch], summary[ch] = f(i)`. */
  method FillTurn<A, B>(names: seq<string>, targets: seq<string>, f: nat -> Result<(A, B)>, i: nat,
                        acc: (Dict<A>, Dict<B>))
    returns (next: Result<(Dict<A>, Dict<B>)>)
    requires i < |names| && Fill(names, targets, f, i) == Ok(acc)
    ensures next == Fill(names, targets, f, i + 1)
  {
    FillStep(names, targets, f, i, acc);
    next := Ok(acc);
    if names[i] in targets {
      var out := f(i);
      if out.Err? {
        return Err(out.error);
      }
      next := Ok((Put(acc.0, names[i], out.value.0), Put(acc.1, names[i], out.value.1)));
    }
  }

  /** Once computing a selected channel has raised, the loop ends with that error. */
  lemma {:induction false} FillErrorPersists<A, B>(names: seq<string>, targets: seq<string>, f: nat -> Result<(A, B)>,
                                             i: nat, n: nat)
    requires i <= n <= |names| && Fill(names, targets, f, i).Err?
    ensures Fill(names, targets, f, n) == Fill(names, targets, f, i)
  {
    if i < n {
      FillErrorPersists(names, targets, f, i, n - 1);
    }
  }

  /** The last position below `n` that holds `ch`: the assignment that wins. */
  function LastIndex(names: seq<string>, ch: string, n: nat): (i: nat)
    requires n <= |names| && ch in names[..n]
    ensures i < n && names[i] == ch
    ensures forall j :: i < j < n ==> names[j] != ch
  {
    if names[n - 1] == ch then n - 1
    else
      assert ch in names[..n - 1] by {
        var k :| 0 <= k < n && names[..n][k] == ch;
        assert names[..n - 1][k] == ch;
      }
      LastIndex(names, ch, n - 1)
  }

  predicate Selected(names: seq<string>, targets: seq<string>, ch: string, n: nat)
    requires n <= |names|
  {
    ch in names[..n] && ch in targets
  }

  /** The loop raises exactly when computing a selected channel raises. */
  lemma {:induction false} FillFails<A, B>(names: seq<string>, targets: seq<string>, f: nat -> Result<(A, B)>, n: nat)
    requires n <= |names|
    ensures Fill(names, targets, f, n).Err? <==> exists i :: 0 <= i < n && names[i] in targets && f(i).Err?
  {
    if n > 0 {
      FillFails(names, targets, f, n - 1);
    }
  }

  /** When it does not raise, the keys are exactly the selected names. */
  lemma {:induction false} FillKeys<A, B>(names: seq<string>, targets: seq<string>, f: nat -> Result<(A, B)>, n: nat)
    requires n <= |names|
    ensures var r := Fill(names, targets, f, n);
      r.Ok? ==> forall ch :: ch in r.value.0.values <==> Selected(names, targets, ch, n)
  {
    if n > 0 {
      FillKeys(names, targets, f, n - 1);
      assert names[..n] == names[..n - 1] + [names[n - 1]];
    }
  }

  /** ... and each key holds what was computed at its last position. */
  lemma {:induction false} FillValues<A, B>(names: seq<string>, targets: seq<string>, f: nat -> Result<(A, B)>, n: nat)
    requires n <= |names|
    ensures var r := Fill(names, targets, f, n);
      r.Ok? ==> forall ch :: Selected(names, targets, ch, n) ==>
            f(LastIndex(names, ch, n)).Ok?
            && ch in r.value.0.values && ch in r.value.1.values
            && r.value.0.values[ch] == f(LastIndex(names, ch, n)).value.0
            && r.value.1.values[ch] == f(LastIndex(names, ch, n)).value.1
  {
    if n > 0 {
      FillValues(names, targets, f, n - 1);
      var prev := Fill(names, targets, f, n - 1);
      var r := Fill(names, targets, f, n);
      if r.Ok? {
        assert prev.Ok?;
        var last := names[n - 1];
        assert names[..n] == names[..n - 1] + [last];
        forall ch | Selected(names, targets, ch, n)
          ensures f(LastIndex(names, ch, n)).Ok?
            && ch in r.value.0.values && ch in r.value.1.values
            && r.value.0.values[ch] == f(LastIndex(names, ch, n)).value.0
            && r.value.1.values[ch] == f(LastIndex(names, ch, n)).value.1
        {
          if ch == last {
            assert LastIndex(names, ch, n) == n - 1;
          } else {
            assert Selected(names, targets, ch, n - 1);
            assert LastIndex(names, ch, n) == LastIndex(names, ch, n - 1);
            assert r.value.0.values[ch] == prev.value.0.values[ch];
            assert r.value.1.values[ch] == prev.value.1.values[ch];
          }
        }
      }
    }
  }

  /**
   * The loop raises exactly when computing a selected channel raises; when
   * it does not, both dictionaries have exactly the selected names as keys,
   * each holding what was computed at its last position.
   */
  lemma FillMeaning<A, B>(names: seq<string>, targets: seq<string>, f: nat -> Result<(A, B)>, n: nat)
    requires n <= |names|
    ensures var r := Fill(names, targets, f, n);
      (r.Err? <==> exists i :: 0 <= i < n && names[i] in targets && f(i).Err?)
      && (r.Ok? ==> forall ch :: ch in r.value.0.values <==> Selected(names, targets, ch, n))
      && (r.Ok? ==> forall ch :: Selected(names, targets, ch, n) ==>
            f(LastIndex(names, ch, n)).Ok? && ch in r.value.1.values
            && r.value.0.values[ch] == f(LastIndex(names, ch, n)).value.0
            && r.value.1.values[ch] == f(LastIndex(names, ch, n)).value.1)
  {
    FillFails(names, targets, f, n);
    FillKeys(names, targets, f, n);
    FillValues(names, targets, f, n);
  }

  /** With distinct names all selected, the keys are the names in order. */
  lemma {:induction false} FillAllKeys<A, B>(names: seq<string>, targets: seq<string>, f: nat -> Result<(A, B)>, n: nat)
    requires n <= |names| && Distinct(names)
    requires forall i :: 0 <= i < n ==> names[i] in targets
    ensures var r := Fill(names, targets, f, n);
      r.Ok? ==> r.value.0.keys == names[..n]
  {
    if n > 0 {
      DistinctLastFresh(names, n);
      FillAllKeys(names, targets, f, n - 1);
      FillValid(names, targets, f, n - 1);
      var prev := Fill(names, targets, f, n - 1);
      if prev.Ok? {
        var last := names[n - 1];
        FillStep(names, targets, f, n - 1, prev.value);
        assert last !in prev.value.0.values;
        assert names[..n] == names[..n - 1] + [last];
      }
    }
  }

  /** Selecting one of distinct names, the keys are that name once it has been reached. */
  lemma {:induction false} FillSingleKeys<A, B>(names: seq<string>, name: string, f: nat -> Result<(A, B)>, n: nat)
    requires n <= |names| && Distinct(names)
    requires forall i :: 0 <= i < |names| ==> f(i).Ok?
    ensures var r := Fill(names, [name], f, n);
      r.Ok? && r.value.0.keys == if name in names[..n] then [name] else []
  {
    if n > 0 {
      FillSingleKeys(names, name, f, n - 1);
      FillValid(names, [name], f, n - 1);
      assert names[..n] == names[..n - 1] + [names[n - 1]];
      if names[n - 1] == name {
        assert name !in names[..n - 1];
      }
    }
  }

  /**
   * Selecting one of distinct names, when computing never raises, gives
   * dictionaries holding that name alone, computed at its position.
   */
  lemma FillSingle<A, B>(names: seq<string>, name: string, f: nat -> Result<(A, B)>)
    requires Distinct(names) && name in names
    requires forall i :: 0 <= i < |names| ==> f(i).Ok?
    ensures var r := Fill(names, [name], f, |names|);
      r.Ok? && r.value.0.keys == [name] && name in r.value.0.values && name in r.value.1.values
      && r.value.0.values[name] == f(IndexOf(names, name)).value.0
      && r.value.1.values[name] == f(IndexOf(names, name)).value.1
  {
    FillFails(names, [name], f, |names|);
    FillKeys(names, [name], f, |names|);
    FillValues(names, [name], f, |names|);
    assert names[..|names|] == names;
    assert Selected(names, [name], name, |names|);
    var d := Fill(names, [name], f, |names|).value.0;
    FillSingleKeys(names, name, f, |names|);
    assert LastIndex(names, name, |names|) == IndexOf(names, name);
  }
}

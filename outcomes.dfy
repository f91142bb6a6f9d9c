/** Failure values shared by the whole model. */
module Outcomes {

  /** A Go `error` value: nil (`Ok`), or an error carrying its message. */
  datatype Status = Ok | Fail(message: string)

  /** The outcome of a step that either yields a value or fails with a message. */
  datatype Result<T> = Success(value: T) | Failure(message: string)

  /** `done` followed by whatever `rest` yields; a failure of `rest` discards `done`. */
  function Then<T>(done: seq<T>, rest: Result<seq<T>>): Result<seq<T>>
  {
    match rest
    case Success(more) => Success(done + more)
    case Failure(e) => Failure(e)
  }

  /** The Go pair `(values, err)` that a function returns for the outcome `r`:
      the values and a nil error, or an empty slice and the error. */
  predicate Reports<T(==)>(r: Result<seq<T>>, values: seq<T>, err: Status)
  {
    match r
    case Success(v) => err == Ok && values == v
    case Failure(e) => err == Fail(e) && values == []
  }

  lemma ThenEmpty<T>(rest: Result<seq<T>>)
    ensures Then([], rest) == rest
  {
    if rest.Success? {
      assert [] + rest.value == rest.value;
    }
  }

  lemma ThenThen<T>(done: seq<T>, more: seq<T>, rest: Result<seq<T>>)
    ensures Then(done, Then(more, rest)) == Then(done + more, rest)
  {
    if rest.Success? {
      assert done + (more + rest.value) == (done + more) + rest.value;
    }
  }

  /** Writing `x` at `idx` extends the untouched prefix by `x` and keeps the suffix. */
  lemma UpdateSplits<T>(s: seq<T>, idx: nat, x: T)
    requires idx < |s|
    ensures s[idx := x][..idx + 1] == s[..idx] + [x]
    ensures s[idx := x][idx + 1..] == s[idx + 1..]
  {
  }

  /** The values `f` yields for each key, concatenated in key order; the first
      key whose step fails ends it with that failure. */
  function Collect<K, T>(keys: seq<K>, f: K -> Result<seq<T>>): Result<seq<T>>
    decreases |keys|
  {
    if |keys| == 0 then Success([])
    else
      match f(keys[0])
      case Failure(e) => Failure(e)
      case Success(v) => Then(v, Collect(keys[1..], f))
  }

  /** Unfolding the collection of a suffix at its first key. */
  lemma CollectStep<K, T>(keys: seq<K>, f: K -> Result<seq<T>>, i: nat)
    requires i < |keys|
    ensures Collect(keys[i..], f) ==
      match f(keys[i])
      case Failure(e) => Failure(e)
      case Success(v) => Then(v, Collect(keys[i + 1..], f))
  {
    assert keys[i..][0] == keys[i] && keys[i..][1..] == keys[i + 1..];
  }

  /** One step of a loop that collects `f` key by key: a failing step reports
      the collection's failure, a succeeding one moves its values into `done`. */
  lemma CollectAdvance<K, T>(keys: seq<K>, f: K -> Result<seq<T>>, i: nat, done: seq<T>, values: seq<T>, err: Status)
    requires i < |keys|
    requires Collect(keys, f) == Then(done, Collect(keys[i..], f))
    requires Reports(f(keys[i]), values, err)
    ensures err != Ok ==> Reports(Collect(keys, f), [], err)
    ensures err == Ok ==> Collect(keys, f) == Then(done + values, Collect(keys[i + 1..], f))
  {
    CollectStep(keys, f, i);
    if err == Ok {
      ThenThen(done, values, Collect(keys[i + 1..], f));
    }
  }

  /** The collection succeeds exactly when every key's step does. */
  lemma {:induction false} CollectSucceeds<K, T>(keys: seq<K>, f: K -> Result<seq<T>>)
    ensures Collect(keys, f).Success? <==> forall k :: 0 <= k < |keys| ==> f(keys[k]).Success?
    decreases |keys|
  {
    if |keys| > 0 {
      CollectSucceeds(keys[1..], f);
      assert forall k :: 1 <= k < |keys| ==> keys[1..][k - 1] == keys[k];
    }
  }

  /** When every key before `k` succeeds and key `k` fails, the collection
      fails with key `k`'s message. */
  lemma {:induction false} CollectFirstFailure<K, T>(keys: seq<K>, f: K -> Result<seq<T>>, k: nat)
    requires k < |keys| && f(keys[k]).Failure?
    requires forall j :: 0 <= j < k ==> f(keys[j]).Success?
    ensures Collect(keys, f) == Failure(f(keys[k]).message)
    decreases k
  {
    if k > 0 {
      assert forall j :: 0 <= j < k - 1 ==> keys[1..][j] == keys[j + 1];
      CollectFirstFailure(keys[1..], f, k - 1);
    }
  }

  /** Collecting over `xs + ys` is collecting over `xs`, then over `ys`. */
  lemma {:induction false} CollectAppend<K, T>(xs: seq<K>, ys: seq<K>, f: K -> Result<seq<T>>)
    ensures Collect(xs + ys, f) ==
      match Collect(xs, f)
      case Failure(e) => Failure(e)
      case Success(v) => Then(v, Collect(ys, f))
    decreases |xs|
  {
    if |xs| == 0 {
      assert xs + ys == ys;
      ThenEmpty(Collect(ys, f));
    } else {
      assert (xs + ys)[0] == xs[0] && (xs + ys)[1..] == xs[1..] + ys;
      CollectAppend(xs[1..], ys, f);
      var first := f(xs[0]);
      var rest := Collect(xs[1..], f);
      if first.Success? && rest.Success? {
        ThenThen(first.value, rest.value, Collect(ys, f));
      }
    }
  }

  /** A single key collects to its own step. */
  lemma CollectSingle<K, T>(key: K, f: K -> Result<seq<T>>)
    ensures Collect([key], f) == f(key)
  {
    assert [key][1..] == [];
    if f(key).Success? {
      assert f(key).value + [] == f(key).value;
    }
  }
}

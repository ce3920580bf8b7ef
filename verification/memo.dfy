/** `functools.lru_cache(maxsize=None)` around a constructor that takes no
    arguments: the first call that succeeds stores its result, every later call
    returns it without constructing again, and a call that raises stores nothing,
    so the next call constructs again. */
module Memo {
  import opened Wrappers

  /** The cache's state: the stored handle, how many times the constructor has
      run, and how many of those runs returned a handle. */
  datatype Slot<T> = Slot(cached: Option<T>, constructions: nat, successes: nat)

  /** At most one construction has ever succeeded, and a handle is stored
      exactly when one has. */
  predicate SlotValid<T>(m: Slot<T>)
  {
    m.successes <= 1 && (m.cached.Some? <==> m.successes == 1) && m.successes <= m.constructions
  }

  /** What one call returns and the cache's state after it. */
  datatype Lookup<T> = Lookup(result: Outcome<T>, slot: Slot<T>)

  /** One call of the cached getter; `attempt` is what the constructor yields
      if it is run by this call. */
  function Call<T>(m: Slot<T>, attempt: Outcome<T>): (r: Lookup<T>)
    ensures SlotValid(m) ==> SlotValid(r.slot)
  {
    match m.cached
    case Some(h) => Lookup(Ok(h), m)
    case None =>
      match attempt
      case Ok(h) => Lookup(Ok(h), Slot(Some(h), m.constructions + 1, m.successes + 1))
      case Fail(e) => Lookup(Fail(e), Slot(None, m.constructions + 1, m.successes))
  }

  /** The results of a series of calls and the state after the last one. */
  datatype Calls<T> = Calls(results: seq<Outcome<T>>, slot: Slot<T>)

  /** Calls made one after another; `attempts[k]` is what the constructor yields
      if call `k` runs it. */
  function CallAll<T>(m: Slot<T>, attempts: seq<Outcome<T>>): (r: Calls<T>)
    ensures |r.results| == |attempts|
    ensures SlotValid(m) ==> SlotValid(r.slot)
    ensures r.slot.constructions >= m.constructions
    decreases |attempts|
  {
    if attempts == [] then Calls([], m)
    else
      var first := Call(m, attempts[0]);
      var rest := CallAll(first.slot, attempts[1..]);
      Calls([first.result] + rest.results, rest.slot)
  }

  /** Index of the first constructor run that succeeds, or `|attempts|`. */
  function FirstOk<T>(attempts: seq<Outcome<T>>): (n: nat)
    ensures n <= |attempts|
    ensures forall k :: 0 <= k < n ==> attempts[k].Fail?
    ensures n < |attempts| ==> attempts[n].Ok?
  {
    if attempts == [] || attempts[0].Ok? then 0 else 1 + FirstOk(attempts[1..])
  }

  /** Once a handle is stored, every later call returns it and nothing changes. */
  lemma {:induction false} CachedHandleIsReturned<T>(m: Slot<T>, attempts: seq<Outcome<T>>)
    requires m.cached.Some?
    ensures forall k :: 0 <= k < |attempts| ==> CallAll(m, attempts).results[k] == Ok(m.cached.value)
    ensures CallAll(m, attempts).slot == m
    decreases |attempts|
  {
    if attempts != [] {
      CachedHandleIsReturned(m, attempts[1..]);
    }
  }

  /** Starting from an empty cache: every call up to and including the first
      successful construction runs the constructor and returns what it yields
      (a failure is passed on and not stored), every later call returns that same
      handle, and the constructor succeeds at most once. */
  lemma {:induction false} ConstructedAtMostOnce<T>(m: Slot<T>, attempts: seq<Outcome<T>>)
    requires SlotValid(m) && m.cached.None?
    ensures var r := CallAll(m, attempts);
      && SlotValid(r.slot)
      && (forall k :: 0 <= k < |attempts| && k <= FirstOk(attempts) ==> r.results[k] == attempts[k])
      && (forall k :: FirstOk(attempts) < k < |attempts| ==> r.results[k] == attempts[FirstOk(attempts)])
      && r.slot.constructions == m.constructions + (if FirstOk(attempts) < |attempts| then FirstOk(attempts) + 1 else |attempts|)
      && r.slot.cached == (if FirstOk(attempts) < |attempts| then Some(attempts[FirstOk(attempts)].value) else None)
    decreases |attempts|
  {
    if attempts != [] {
      var first := Call(m, attempts[0]);
      var r := CallAll(m, attempts);
      var rest := CallAll(first.slot, attempts[1..]);
      assert r.results == [first.result] + rest.results;
      if attempts[0].Ok? {
        assert FirstOk(attempts) == 0;
        CachedHandleIsReturned(first.slot, attempts[1..]);
        assert forall k :: 0 < k < |attempts| ==> r.results[k] == rest.results[k - 1];
      } else {
        ConstructedAtMostOnce(first.slot, attempts[1..]);
        assert FirstOk(attempts) == 1 + FirstOk(attempts[1..]);
        assert forall k :: 0 < k < |attempts| ==> r.results[k] == rest.results[k - 1];
        assert forall k :: 0 < k < |attempts| ==> attempts[k] == attempts[1..][k - 1];
      }
    }
  }

  /** One memoised getter, with the cache's state as fields. */
  class Cache<T> {
    var cached: Option<T>
    ghost var constructions: nat
    ghost var successes: nat

    ghost function State(): Slot<T>
      reads this
    {
      Slot(cached, constructions, successes)
    }

    ghost predicate Valid()
      reads this
    {
      SlotValid(State())
    }

    constructor ()
      ensures Valid() && State() == Slot(None, 0, 0)
    {
      cached := None;
      constructions := 0;
      successes := 0;
    }

    /** Calling the getter: run `construct` only when nothing is stored. */
    method Get(construct: () -> Outcome<T>) returns (r: Outcome<T>)
      requires Valid()
      modifies this
      ensures Valid()
      ensures old(cached).Some? ==> r == Ok(old(cached).value) && State() == old(State())
      ensures old(cached).None? ==>
                && r == construct()
                && constructions == old(constructions) + 1
                && cached == (if r.Ok? then Some(r.value) else None)
      ensures Lookup(r, State()) == Call(old(State()), construct())
    {
      match cached
      case Some(h) =>
        r := Ok(h);
      case None =>
        r := construct();
        constructions := constructions + 1;
        if r.Ok? {
          cached := Some(r.value);
          successes := successes + 1;
        }
    }
  }
}

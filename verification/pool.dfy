/** The commit step of `simulate`. Each worker finishes a trial, takes the
    lock on the shared result vector, and pushes the trial only if the vector
    is still below the target length; otherwise it stops taking work. The lock
    serializes these commits, so every run of the workers is described by one
    sequence of commit events in lock order. */
module Pool {

  /** The shared result vector, and the workers that have already stopped. */
  datatype Pool<T> = Pool(results: seq<T>, stopped: set<nat>)

  /** Worker `worker` holds the lock with the trial it has just completed. */
  datatype Event<T> = Event(worker: nat, trial: T)

  function Min(a: nat, b: nat): nat
  {
    if a <= b then a else b
  }

  /** The trials carried by a sequence of events, in order. */
  function Trials<T>(events: seq<Event<T>>): (ts: seq<T>)
    ensures |ts| == |events|
    ensures forall i :: 0 <= i < |events| ==> ts[i] == events[i].trial
  {
    seq(|events|, i requires 0 <= i < |events| => events[i].trial)
  }

  /** What the pool looks like between commits: never past the target, and a
      worker has stopped only after seeing it full. */
  predicate Settled<T>(p: Pool<T>, target: nat)
  {
    |p.results| <= target && (p.stopped != {} ==> |p.results| == target)
  }

  /** One check-and-push under the lock. A worker that has stopped has left
      its loop and commits nothing more. */
  function Commit<T>(p: Pool<T>, e: Event<T>, target: nat): (q: Pool<T>)
    // the vector only grows, by at most the committed trial, at the end
    ensures |p.results| <= |q.results| <= |p.results| + 1
    ensures q.results[..|p.results|] == p.results
    ensures |q.results| == |p.results| + 1 ==> q.results[|p.results|] == e.trial
    // a push happens exactly when the worker is running and the vector is short
    ensures |q.results| > |p.results| <==> e.worker !in p.stopped && |p.results| < target
    // a running worker that finds the vector full stops
    ensures e.worker !in p.stopped && |p.results| >= target ==> e.worker in q.stopped
    // a stopped worker commits nothing, a push stops nobody, and a stop stops
    // only the committing worker
    ensures e.worker in p.stopped ==> q == p
    ensures |q.results| > |p.results| ==> q.stopped == p.stopped
    ensures q.stopped == p.stopped || q.stopped == p.stopped + {e.worker}
    ensures Settled(p, target) ==> Settled(q, target)
  {
    if e.worker in p.stopped then p
    else if |p.results| < target then p.(results := p.results + [e.trial])
    else p.(stopped := p.stopped + {e.worker})
  }

  /** The commits of a whole run, in lock order. */
  function CommitAll<T>(p: Pool<T>, events: seq<Event<T>>, target: nat): Pool<T>
    decreases |events|
  {
    if |events| == 0 then p
    else CommitAll(Commit(p, events[0], target), events[1..], target)
  }

  /** However the commits interleave, the vector never grows past the target
      and what was committed stays where it is. */
  lemma {:induction false} CommitAllBounded<T>(p: Pool<T>, events: seq<Event<T>>, target: nat)
    requires |p.results| <= target
    ensures |CommitAll(p, events, target).results| <= target
    ensures |p.results| <= |CommitAll(p, events, target).results|
    ensures CommitAll(p, events, target).results[..|p.results|] == p.results
    decreases |events|
  {
    if |events| > 0 {
      var q := Commit(p, events[0], target);
      CommitAllBounded(q, events[1..], target);
      var r := CommitAll(q, events[1..], target);
      assert r.results[..|p.results|] == r.results[..|q.results|][..|p.results|];
    }
  }

  /** The trials of a non-empty event sequence: the first, then the rest. */
  lemma TrialsCons<T>(events: seq<Event<T>>)
    requires |events| > 0
    ensures Trials(events) == [events[0].trial] + Trials(events[1..])
  {
  }

  /** One commit followed by the first `m` remaining trials gives the first
      `n` trials of the whole sequence after the starting vector. */
  lemma CommitThenRest<T>(p: Pool<T>, events: seq<Event<T>>, target: nat)
    requires Settled(p, target) && |events| > 0
    ensures var q := Commit(p, events[0], target);
      q.results + Trials(events[1..])[..Min(|events| - 1, target - |q.results|)]
        == p.results + Trials(events)[..Min(|events|, target - |p.results|)]
  {
    TrialsCons(events);
    if |p.results| < target {
      PushThenRest(p.results, events[0].trial, Trials(events[1..]), Min(|events| - 1, target - |p.results| - 1));
    }
  }

  /** Pushing `t` and then appending `m` more trials appends `m + 1` trials of
      `[t] + rest`. */
  lemma PushThenRest<T>(results: seq<T>, t: T, rest: seq<T>, m: nat)
    requires m <= |rest|
    ensures (results + [t]) + rest[..m] == results + ([t] + rest)[..m + 1]
  {
    assert ([t] + rest)[..m + 1] == [t] + rest[..m];
  }

  /** Exactly which trials end up in the vector: the first ones committed, up
      to the target, in lock order. */
  lemma {:induction false} CommitAllExact<T>(p: Pool<T>, events: seq<Event<T>>, target: nat)
    requires Settled(p, target)
    ensures CommitAll(p, events, target).results
         == p.results + Trials(events)[..Min(|events|, target - |p.results|)]
    ensures Settled(CommitAll(p, events, target), target)
    decreases |events|
  {
    if |events| == 0 {
      assert p.results + Trials(events)[..0] == p.results;
    } else {
      var q := Commit(p, events[0], target);
      CommitAllExact(q, events[1..], target);
      CommitThenRest(p, events, target);
    }
  }

  /** With at least as many completed trials as the target, the vector ends
      exactly at the target: never short and never overshot. */
  lemma FillsToTarget<T>(events: seq<Event<T>>, target: nat)
    requires |events| >= target
    ensures |CommitAll(Pool([], {}), events, target).results| == target
  {
    CommitAllExact(Pool([], {}), events, target);
  }

  /** `simulate` as a serial loop over the commits in lock order; it returns
      the shared vector once every event has been handled. */
  method Simulate<T>(target: nat, events: seq<Event<T>>) returns (results: seq<T>)
    ensures results == Trials(events)[..Min(|events|, target)]
    ensures |results| <= target
    ensures |events| >= target ==> |results| == target
  {
    var pool: Pool<T> := Pool([], {});
    var i := 0;
    while i < |events|
      invariant i <= |events|
      invariant Settled(pool, target)
      invariant pool.results == Trials(events)[..Min(i, target)]
    {
      var ts := Trials(events);
      if |pool.results| < target {
        assert ts[..Min(i + 1, target)] == ts[..Min(i, target)] + [ts[i]];
      }
      pool := Commit(pool, events[i], target);
      i := i + 1;
    }
    results := pool.results;
  }
}

/** One umbral creation trial: the tier it has reached, the resources it has
    spent, and the transition one random draw makes it take. */
module Creation {

  /** Quality tier of the creation; `Master` is the only terminal tier. */
  datatype State = None | Crude | Regular | Master

  /** A trial in progress: its tier and the clusters of solace and dream
      matters spent so far. */
  datatype UmbralCreation = UmbralCreation(state: State, clustersSpent: nat, dreamMattersSpent: nat)

  /** The effect of one draw: the next tier and the amounts to add to the two
      counters. */
  datatype Transition = Transition(next: State, clusters: nat, dreamMatters: nat)

  /** Position of a tier in the progression None < Crude < Regular < Master. */
  function Rank(s: State): nat
  {
    match s
    case None => 0
    case Crude => 1
    case Regular => 2
    case Master => 3
  }

  /** A fresh trial: no tier reached, nothing spent. */
  function New(): UmbralCreation
  {
    UmbralCreation(None, 0, 0)
  }

  /** A trial is finished exactly when it has reached `Master`. */
  predicate IsDone(uc: UmbralCreation)
  {
    uc.state.Master?
  }

  /** Number of equally likely outcomes of the draw taken in a transient tier. */
  function Tries(s: State): nat
    requires !s.Master?
  {
    match s
    case None => 191
    case Crude => 248
    case Regular => 131
  }

  /** A draw the random source can hand out in tier `s`: `gen_range(1, tries + 1)`
      is half-open, so the draw lies in [1, Tries(s)]. In `Master` no draw is
      taken and any value is harmless. */
  predicate ValidDraw(s: State, draw: int)
  {
    s.Master? || 1 <= draw <= Tries(s)
  }

  /** The transition taken from tier `s` on `draw`. */
  function Step(s: State, draw: int): (t: Transition)
    requires ValidDraw(s, draw)
    // every transition spends clusters in multiples of five
    ensures t.clusters % 5 == 0
    // a dream matter is spent exactly on the advance from None to Crude
    ensures t.dreamMatters <= 1
    ensures t.dreamMatters == 1 <==> s.None? && t.next.Crude?
    // a tier is gained at most one at a time
    ensures Rank(t.next) <= Rank(s) + 1
    ensures t.next.Master? ==> s.Regular? || s.Master?
    // nothing is spent exactly when falling back to None from above, or when done
    ensures t.clusters == 0 <==> s.Master? || (!s.None? && t.next.None?)
    // Master is absorbing and costs nothing
    ensures s.Master? ==> t.next.Master? && t.clusters == 0 && t.dreamMatters == 0
  {
    match s
    case None =>
      if draw <= 121 then Transition(Crude, 20, 1)
      else Transition(None, 20, 0)
    case Crude =>
      if draw <= 96 then Transition(Regular, 75, 0)
      else if draw > 96 && draw <= 174 then Transition(Crude, 75, 0)
      else Transition(None, 0, 0)
    case Regular =>
      if draw <= 14 then Transition(Master, 150, 0)
      else if draw > 14 && draw <= 68 then Transition(Crude, 75, 0)
      else Transition(None, 0, 0)
    case Master => Transition(Master, 0, 0)
  }

  /** The transition table as data: the draws of a transient tier are split into
      consecutive bands, each ending at `last` (inclusive) and each with one
      outcome. */
  datatype Band = Band(last: nat, outcome: Transition)

  function Bands(s: State): seq<Band>
    requires !s.Master?
  {
    match s
    case None => [Band(121, Transition(Crude, 20, 1)), Band(191, Transition(None, 20, 0))]
    case Crude => [Band(96, Transition(Regular, 75, 0)), Band(174, Transition(Crude, 75, 0)),
                   Band(248, Transition(None, 0, 0))]
    case Regular => [Band(14, Transition(Master, 150, 0)), Band(68, Transition(Crude, 75, 0)),
                     Band(131, Transition(None, 0, 0))]
  }

  /** The outcome of the first band that contains `draw`. */
  function Lookup(bands: seq<Band>, draw: int): Transition
    requires |bands| > 0
  {
    if |bands| == 1 || draw <= bands[0].last then bands[0].outcome
    else Lookup(bands[1..], draw)
  }

  /** The bands of each transient tier are non-empty, disjoint and in order, and
      together cover exactly [1, Tries(s)]. */
  lemma BandsPartitionDraws(s: State)
    requires !s.Master?
    ensures |Bands(s)| > 0
    ensures Bands(s)[0].last >= 1
    ensures forall i :: 0 < i < |Bands(s)| ==> Bands(s)[i - 1].last < Bands(s)[i].last
    ensures Bands(s)[|Bands(s)| - 1].last == Tries(s)
  {
  }

  /** `Step` agrees with the transition table for every draw the source can take. */
  lemma StepFollowsBands(s: State, draw: int)
    requires !s.Master? && ValidDraw(s, draw)
    ensures Step(s, draw) == Lookup(Bands(s), draw)
  {
    var b := Bands(s);
    if draw > b[0].last {
      assert Lookup(b, draw) == Lookup(b[1..], draw);
      if |b| > 2 && draw > b[1].last {
        assert Lookup(b[1..], draw) == Lookup(b[2..], draw);
      }
    }
  }

  /** The boundary draws of each tier. */
  lemma StepBoundaries()
    ensures Step(None, 1) == Transition(Crude, 20, 1)
    ensures Step(None, 121) == Transition(Crude, 20, 1)
    ensures Step(None, 122) == Transition(None, 20, 0)
    ensures Step(None, 191) == Transition(None, 20, 0)
    ensures Step(Crude, 1) == Transition(Regular, 75, 0)
    ensures Step(Crude, 96) == Transition(Regular, 75, 0)
    ensures Step(Crude, 97) == Transition(Crude, 75, 0)
    ensures Step(Crude, 174) == Transition(Crude, 75, 0)
    ensures Step(Crude, 175) == Transition(None, 0, 0)
    ensures Step(Crude, 248) == Transition(None, 0, 0)
    ensures Step(Regular, 1) == Transition(Master, 150, 0)
    ensures Step(Regular, 14) == Transition(Master, 150, 0)
    ensures Step(Regular, 15) == Transition(Crude, 75, 0)
    ensures Step(Regular, 68) == Transition(Crude, 75, 0)
    ensures Step(Regular, 69) == Transition(None, 0, 0)
    ensures Step(Regular, 131) == Transition(None, 0, 0)
  {
  }

  /** What every trial started by `New` satisfies at every point: clusters are
      spent in multiples of five and at least 20 per dream matter, and each tier
      above None is paid for by the cheapest way to reach it
      (Crude 20, Regular 20 + 75, Master 20 + 75 + 150). */
  predicate WellSpent(uc: UmbralCreation)
  {
    && uc.clustersSpent % 5 == 0
    && uc.clustersSpent >= 20 * uc.dreamMattersSpent
    && (uc.state.Crude? ==> uc.dreamMattersSpent >= 1)
    && (uc.state.Regular? ==> uc.dreamMattersSpent >= 1 && uc.clustersSpent >= 95)
    && (uc.state.Master? ==> uc.dreamMattersSpent >= 1 && uc.clustersSpent >= 245)
  }

  /** One pass through the loop body of `perform`: draw once and apply the
      transition to the trial. */
  function Attempt(uc: UmbralCreation, draw: int): (r: UmbralCreation)
    requires ValidDraw(uc.state, draw)
    // the counters never decrease
    ensures r.clustersSpent >= uc.clustersSpent
    ensures r.dreamMattersSpent >= uc.dreamMattersSpent
    ensures r.dreamMattersSpent <= uc.dreamMattersSpent + 1
    // a finished trial is never changed again
    ensures IsDone(uc) ==> r == uc
    // the accounting invariant is kept
    ensures WellSpent(uc) ==> WellSpent(r)
  {
    var t := Step(uc.state, draw);
    UmbralCreation(t.next, uc.clustersSpent + t.clusters, uc.dreamMattersSpent + t.dreamMatters)
  }

  /** A fresh trial is well spent and not done. */
  lemma NewIsWellSpent()
    ensures WellSpent(New()) && !IsDone(New())
  {
  }

  /** An attempt leaves a trial unchanged exactly when the trial is done: in
      every transient tier each outcome either moves the tier or spends
      clusters. */
  lemma AttemptFixedIffDone(uc: UmbralCreation, draw: int)
    requires ValidDraw(uc.state, draw)
    ensures Attempt(uc, draw) == uc <==> IsDone(uc)
  {
  }
}

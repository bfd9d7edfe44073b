/** `perform`: drive one trial from its current tier until it reaches Master.
    The random draws are an explicit finite sequence; a run that uses up the
    sequence before reaching Master simply stops there. */
module Runner {
  import opened Creation

  /** Every draw lies in the range the random source uses for the tier the
      trial is in when that draw is taken. Draws after the trial is done are
      never taken and are unconstrained. */
  predicate ValidDraws(uc: UmbralCreation, draws: seq<int>)
    decreases |draws|
  {
    IsDone(uc) || |draws| == 0 ||
    (ValidDraw(uc.state, draws[0]) && ValidDraws(Attempt(uc, draws[0]), draws[1..]))
  }

  /** The trials visited by `perform`, starting with `uc` itself. */
  function Trace(uc: UmbralCreation, draws: seq<int>): (tr: seq<UmbralCreation>)
    requires ValidDraws(uc, draws)
    // one draw is consumed per step
    ensures 1 <= |tr| <= |draws| + 1
    ensures tr[0] == uc
    ensures forall i :: 0 <= i < |tr| - 1 ==>
      !IsDone(tr[i]) && ValidDraw(tr[i].state, draws[i]) && tr[i + 1] == Attempt(tr[i], draws[i])
    // the loop stops exactly at Master, or when the draws run out
    ensures IsDone(tr[|tr| - 1]) || |tr| == |draws| + 1
    decreases |draws|
  {
    if IsDone(uc) || |draws| == 0 then [uc]
    else [uc] + Trace(Attempt(uc, draws[0]), draws[1..])
  }

  /** The trial as `perform` leaves it. */
  function Run(uc: UmbralCreation, draws: seq<int>): UmbralCreation
    requires ValidDraws(uc, draws)
  {
    var tr := Trace(uc, draws);
    tr[|tr| - 1]
  }

  /** Neither counter of `a` exceeds the same counter of `b`. */
  predicate SpentNoMore(a: UmbralCreation, b: UmbralCreation)
  {
    a.clustersSpent <= b.clustersSpent && a.dreamMattersSpent <= b.dreamMattersSpent
  }

  /** A list of trials whose counters never drop from one entry to the next
      never drops between any two entries. */
  lemma {:induction false} ChainNoMore(tr: seq<UmbralCreation>)
    requires forall i, j :: 0 <= i && j == i + 1 < |tr| ==> SpentNoMore(tr[i], tr[j])
    ensures forall i, j :: 0 <= i <= j < |tr| ==> SpentNoMore(tr[i], tr[j])
    decreases |tr|
  {
    if |tr| > 1 {
      var p := tr[..|tr| - 1];
      assert forall i :: 0 <= i < |p| ==> p[i] == tr[i];
      ChainNoMore(p);
      forall i, j | 0 <= i <= j < |tr|
        ensures SpentNoMore(tr[i], tr[j])
      {
        if j == |tr| - 1 && i < j {
          assert p[i] == tr[i] && p[j - 1] == tr[j - 1];
          assert SpentNoMore(tr[i], tr[j - 1]) && SpentNoMore(tr[j - 1], tr[j]);
        } else if j < |tr| - 1 {
          assert p[i] == tr[i] && p[j] == tr[j];
        }
      }
    }
  }

  /** Both counters never decrease along a trace. */
  lemma TraceMonotone(uc: UmbralCreation, draws: seq<int>)
    requires ValidDraws(uc, draws)
    ensures forall i, j :: 0 <= i <= j < |Trace(uc, draws)| ==>
      SpentNoMore(Trace(uc, draws)[i], Trace(uc, draws)[j])
  {
    ChainNoMore(Trace(uc, draws));
  }

  /** A trace that starts well spent stays well spent. */
  lemma {:induction false} TraceWellSpent(uc: UmbralCreation, draws: seq<int>)
    requires ValidDraws(uc, draws)
    requires WellSpent(uc)
    ensures forall i :: 0 <= i < |Trace(uc, draws)| ==> WellSpent(Trace(uc, draws)[i])
    decreases |draws|
  {
    var tr := Trace(uc, draws);
    if !(IsDone(uc) || |draws| == 0) {
      var next := Attempt(uc, draws[0]);
      TraceWellSpent(next, draws[1..]);
      assert tr == [uc] + Trace(next, draws[1..]);
    }
  }

  /** `perform` never lowers a counter and keeps the accounting invariant. */
  lemma RunMonotone(uc: UmbralCreation, draws: seq<int>)
    requires ValidDraws(uc, draws)
    ensures Run(uc, draws).clustersSpent >= uc.clustersSpent
    ensures Run(uc, draws).dreamMattersSpent >= uc.dreamMattersSpent
    ensures WellSpent(uc) ==> WellSpent(Run(uc, draws))
  {
    TraceMonotone(uc, draws);
    if WellSpent(uc) {
      TraceWellSpent(uc, draws);
    }
  }

  /** A trial started by `new()` that reaches Master has spent at least
      20 + 75 + 150 = 245 clusters, a multiple of five, and at least one dream
      matter. */
  lemma FinishedTrialCost(draws: seq<int>)
    requires ValidDraws(New(), draws)
    requires IsDone(Run(New(), draws))
    ensures Run(New(), draws).clustersSpent >= 245
    ensures Run(New(), draws).clustersSpent % 5 == 0
    ensures Run(New(), draws).dreamMattersSpent >= 1
  {
    NewIsWellSpent();
    RunMonotone(New(), draws);
  }

  /** One unfolding of the runner: a trial that is not done takes the first
      draw and continues with the rest. */
  lemma RunStep(uc: UmbralCreation, draws: seq<int>)
    requires ValidDraws(uc, draws) && !IsDone(uc) && |draws| > 0
    ensures ValidDraws(Attempt(uc, draws[0]), draws[1..])
    ensures Run(uc, draws) == Run(Attempt(uc, draws[0]), draws[1..])
  {
    assert Trace(uc, draws) == [uc] + Trace(Attempt(uc, draws[0]), draws[1..]);
  }

  /** The bound is reached: a fresh trial whose first three draws all advance
      finishes for exactly 245 clusters and one dream matter. */
  lemma CheapestFinishedTrial(draws: seq<int>)
    requires |draws| >= 3
    requires 1 <= draws[0] <= 121 && 1 <= draws[1] <= 96 && 1 <= draws[2] <= 14
    ensures ValidDraws(New(), draws)
    ensures Run(New(), draws) == UmbralCreation(Master, 245, 1)
  {
    var t1 := Attempt(New(), draws[0]);
    var t2 := Attempt(t1, draws[1]);
    var t3 := Attempt(t2, draws[2]);
    assert t1 == UmbralCreation(Crude, 20, 1);
    assert t2 == UmbralCreation(Regular, 95, 1);
    assert t3 == UmbralCreation(Master, 245, 1);
    var d2 := draws[1..];
    var d1 := d2[1..];
    assert d2[0] == draws[1] && d1[0] == draws[2];
    assert ValidDraws(t3, d1[1..]);
    assert ValidDraws(t2, d1);
    assert ValidDraws(t1, d2);
    assert ValidDraws(New(), draws);
    RunStep(New(), draws);
    RunStep(t1, d2);
    RunStep(t2, d1);
    assert Trace(t3, d1[1..]) == [t3];
  }

  /** Draws of 1 always advance a tier, so enough of them finish any trial. */
  lemma {:induction false} LuckyDrawsFinish(uc: UmbralCreation, draws: seq<int>)
    requires |draws| + Rank(uc.state) >= 3
    requires forall i :: 0 <= i < |draws| ==> draws[i] == 1
    ensures ValidDraws(uc, draws)
    ensures IsDone(Run(uc, draws))
    decreases |draws|
  {
    if !IsDone(uc) {
      assert Rank(uc.state) < 3;
      var next := Attempt(uc, draws[0]);
      assert Rank(next.state) == Rank(uc.state) + 1;
      LuckyDrawsFinish(next, draws[1..]);
      RunStep(uc, draws);
    }
  }

  /** Master is reachable from every tier within three draws, so the chain has
      one absorbing tier that every trial can reach. */
  lemma MasterReachableFromAnyTier(uc: UmbralCreation)
    ensures ValidDraws(uc, [1, 1, 1])
    ensures IsDone(Run(uc, [1, 1, 1]))
  {
    LuckyDrawsFinish(uc, [1, 1, 1]);
  }

  /** The loop of `perform`, driven by `draws`; `used` counts the draws taken. */
  method Perform(uc: UmbralCreation, draws: seq<int>) returns (r: UmbralCreation, used: nat)
    requires ValidDraws(uc, draws)
    ensures used <= |draws|
    ensures r == Run(uc, draws)
    ensures used + 1 == |Trace(uc, draws)|
    ensures IsDone(r) || used == |draws|
    ensures r.clustersSpent >= uc.clustersSpent && r.dreamMattersSpent >= uc.dreamMattersSpent
  {
    r := uc;
    used := 0;
    while !IsDone(r) && used < |draws|
      invariant used <= |draws|
      invariant ValidDraws(r, draws[used..])
      invariant Run(r, draws[used..]) == Run(uc, draws)
      invariant used + |Trace(r, draws[used..])| == |Trace(uc, draws)|
      invariant r.clustersSpent >= uc.clustersSpent && r.dreamMattersSpent >= uc.dreamMattersSpent
      decreases |draws| - used
    {
      var rest := draws[used..];
      assert rest[1..] == draws[used + 1..];
      assert Trace(r, rest) == [r] + Trace(Attempt(r, rest[0]), rest[1..]);
      RunStep(r, rest);
      r := Attempt(r, draws[used]);
      used := used + 1;
    }
  }
}

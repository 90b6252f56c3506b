/** The displayed connection level: worse at once, better only after several equal samples. */
module Hysteresis {
  import opened Options

  datatype Level = Good | Medium | Bad | Connecting | Disconnected

  const RECOVERY_SAMPLES: nat := 2

  predicate Measured(l: Level) { l.Good? || l.Medium? || l.Bad? }

  function Rank(l: Level): int {
    match l
    case Good => 0
    case Medium => 1
    case Bad => 2
    case _ => -1
  }

  datatype Tracker = Tracker(level: Level, pendingLevel: Option<Level>, pendingCount: nat)

  const NEW_TRACKER := Tracker(Connecting, None, 0)

  /** One sample; the level reported is the tracker's level afterwards. */
  function Apply(t: Tracker, sample: Level): Tracker {
    if !Measured(sample) || !Measured(t.level) || Rank(sample) >= Rank(t.level) then Tracker(sample, None, 0)
    else
      var count := if t.pendingLevel == Some(sample) then t.pendingCount + 1 else 1;
      if count >= RECOVERY_SAMPLES then Tracker(sample, None, 0) else Tracker(t.level, Some(sample), count)
  }

  function Tracked(h: seq<Level>): Tracker {
    if h == [] then NEW_TRACKER else Apply(Tracked(h[..|h|-1]), h[|h|-1])
  }

  // ----- The same, told by the samples alone -----

  /** How many equal samples end the history. */
  function TrailingRun(h: seq<Level>): nat {
    if h == [] then 0
    else if |h| > 1 && h[|h|-2] == h[|h|-1] then TrailingRun(h[..|h|-1]) + 1
    else 1
  }

  /** What is shown after a history of samples. */
  function Displayed(h: seq<Level>): Level {
    if h == [] then Connecting
    else
      var shown, sample := Displayed(h[..|h|-1]), h[|h|-1];
      if Measured(sample) && Measured(shown) && Rank(sample) < Rank(shown) && TrailingRun(h) < RECOVERY_SAMPLES
      then shown else sample
  }

  ghost predicate AwaitsRecovery(h: seq<Level>) {
    h != [] && Measured(h[|h|-1]) && Measured(Displayed(h)) && Rank(h[|h|-1]) < Rank(Displayed(h))
  }

  /** The tracker, with its pending level and count, shows exactly what the sample history determines. */
  lemma {:induction false} TrackerRefinesHistory(h: seq<Level>)
    ensures Tracked(h) == Tracker(Displayed(h),
                                  if AwaitsRecovery(h) then Some(h[|h|-1]) else None,
                                  if AwaitsRecovery(h) then TrailingRun(h) else 0)
    decreases |h|
  {
    if h != [] {
      var prev := h[..|h|-1];
      TrackerRefinesHistory(prev);
      if prev != [] {
        NeverBetterThanLatest(prev);
        assert prev[|prev|-1] == h[|h|-2];
      }
    }
  }

  /** The level shown is never better than the latest measurement, and a state that is no measurement is shown as is. */
  lemma NeverBetterThanLatest(h: seq<Level>)
    requires h != []
    ensures if Measured(h[|h|-1]) then Measured(Displayed(h)) && Rank(Displayed(h)) >= Rank(h[|h|-1])
            else Displayed(h) == h[|h|-1]
  {
  }

  /** A sample that is no better than what is shown replaces it at once. */
  lemma WorseningShowsAtOnce(h: seq<Level>, sample: Level)
    requires Measured(sample) && Measured(Displayed(h)) ==> Rank(sample) >= Rank(Displayed(h))
    ensures Displayed(h + [sample]) == sample
  {
    assert (h + [sample])[..|h|] == h;
  }

  lemma {:induction false} TrailingRunIsEqual(h: seq<Level>, j: nat)
    requires |h| - TrailingRun(h) <= j < |h|
    ensures TrailingRun(h) <= |h| && h[j] == h[|h|-1]
    decreases |h|
  {
    TrailingRunFits(h);
    if j < |h| - 1 {
      TrailingRunIsEqual(h[..|h|-1], j);
    }
  }

  lemma {:induction false} TrailingRunFits(h: seq<Level>)
    ensures TrailingRun(h) <= |h|
    decreases |h|
  {
    if |h| > 1 {
      TrailingRunFits(h[..|h|-1]);
    }
  }

  /** Enough equal samples are shown, whatever came before. */
  lemma {:induction false} SteadySamplesShow(h: seq<Level>)
    requires h != [] && TrailingRun(h) >= RECOVERY_SAMPLES
    ensures Displayed(h) == h[|h|-1]
  {
  }

  /** The i-th sample made the display better. */
  ghost predicate Improves(h: seq<Level>, i: nat)
    requires i < |h|
  {
    && Measured(Displayed(h[..i])) && Measured(Displayed(h[..i+1]))
    && Rank(Displayed(h[..i+1])) < Rank(Displayed(h[..i]))
  }

  /** The display improves only to a level that the last RECOVERY_SAMPLES samples all measured. */
  lemma ImprovementNeedsSteadySamples(h: seq<Level>, i: nat)
    requires i < |h| && Improves(h, i)
    ensures i + 1 >= RECOVERY_SAMPLES
    ensures forall j :: i + 1 - RECOVERY_SAMPLES <= j <= i ==> h[j] == Displayed(h[..i+1])
  {
    var p := h[..i+1];
    assert p[..i] == h[..i] && p[i] == h[i];
    assert TrailingRun(p) >= RECOVERY_SAMPLES;
    TrailingRunFits(p);
    forall j | i + 1 - RECOVERY_SAMPLES <= j <= i
      ensures h[j] == Displayed(p)
    {
      TrailingRunIsEqual(p, j);
    }
  }

  lemma {:induction false} SteadyDisplay(h: seq<Level>, i: nat, k: nat)
    requires i <= k < |h| && Displayed(h[..i+1]) == h[i]
    requires forall j :: i <= j <= k ==> h[j] == h[i]
    ensures Displayed(h[..k+1]) == h[i]
    decreases k - i
  {
    if i < k {
      SteadyDisplay(h, i, k - 1);
      assert h[..k+1][..k] == h[..k];
    }
  }

  /** Two improvements are at least RECOVERY_SAMPLES samples apart. */
  lemma ImprovementsAreApart(h: seq<Level>, i: nat, j: nat)
    requires i < j < |h| && Improves(h, i) && Improves(h, j)
    ensures j - i >= RECOVERY_SAMPLES
  {
    ImprovementNeedsSteadySamples(h, i);
    ImprovementNeedsSteadySamples(h, j);
    if j - i < RECOVERY_SAMPLES {
      SteadyDisplay(h, i, j - 1);
    }
  }
}

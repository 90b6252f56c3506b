/** Shuffling a playlist and walking it forwards and backwards. */
module Playlists {
  import opened Options

  // ----- Fisher-Yates -----

  /** One draw per position: draws[i] is the random index in [0, i] picked when position i is settled.
      Position 0 has nothing to choose; the loop never reaches it. */
  predicate ValidDraws(draws: seq<nat>, n: nat) {
    |draws| == n && forall i :: 0 <= i < n ==> draws[i] <= i
  }

  predicate Distinct<T(==)>(s: seq<T>) {
    forall i, j :: 0 <= i < j < |s| ==> s[i] != s[j]
  }

  predicate IsRearrangement<T(==)>(s: seq<T>, t: seq<T>) {
    multiset(s) == multiset(t)
  }

  function Swap<T>(s: seq<T>, i: nat, j: nat): (r: seq<T>)
    requires i < |s| && j < |s|
    ensures |r| == |s|
  {
    s[i := s[j]][j := s[i]]
  }

  /** The last place receives the drawn item; the rest is shuffled with the remaining draws. */
  function Shuffled<T>(s: seq<T>, draws: seq<nat>): (r: seq<T>)
    requires ValidDraws(draws, |s|)
    ensures |r| == |s|
    decreases |s|
  {
    if s == [] then []
    else
      var n := |s| - 1;
      var t := Swap(s, n, draws[n]);
      Shuffled(t[..n], draws[..n]) + [t[n]]
  }

  /** The shuffle of s once the places above i are settled. */
  ghost function Unsettled<T>(s: seq<T>, draws: seq<nat>, i: nat): seq<T>
    requires ValidDraws(draws, |s|) && i < |s|
  {
    Shuffled(s[..i+1], draws[..i+1]) + s[i+1..]
  }

  /** Swapping the drawn item into place i leaves a shorter stretch to shuffle. */
  lemma SettleOne<T>(s: seq<T>, draws: seq<nat>, i: nat)
    requires ValidDraws(draws, |s|) && 0 < i < |s|
    ensures Unsettled(s, draws, i) == Unsettled(Swap(s, i, draws[i]), draws, i - 1)
  {
    var t := Swap(s, i, draws[i]);
    var u := Swap(s[..i+1], i, draws[i]);
    assert u[..i] == t[..i] && draws[..i+1][..i] == draws[..i];
    assert t[i..] == [u[i]] + s[i+1..];
  }

  lemma AllUnsettled<T>(s: seq<T>, draws: seq<nat>)
    requires ValidDraws(draws, |s|) && s != []
    ensures Unsettled(s, draws, |s| - 1) == Shuffled(s, draws)
  {
    assert s[..|s|] == s && draws[..|s|] == draws;
  }

  lemma AllSettled<T>(s: seq<T>, draws: seq<nat>)
    requires ValidDraws(draws, |s|) && s != []
    ensures Unsettled(s, draws, 0) == s
  {
    ShuffledAlone(s[..1], draws[..1]);
    assert s[..1] + s[1..] == s;
  }

  lemma ShuffledAlone<T>(s: seq<T>, draws: seq<nat>)
    requires |s| == 1 && ValidDraws(draws, 1)
    ensures Shuffled(s, draws) == s
  {
    assert Swap(s, 0, 0) == s && s[..0] == [];
  }

  method ShuffleTracks<T>(items: array<T>, draws: seq<nat>) returns (result: array<T>)
    requires ValidDraws(draws, items.Length)
    ensures fresh(result)
    ensures result[..] == Shuffled(items[..], draws)
  {
    result := Slice(items);
    ghost var target := Shuffled(result[..], draws);
    if result.Length == 0 {
      return;
    }
    AllUnsettled(result[..], draws);
    var i := result.Length - 1;
    while i > 0
      invariant 0 <= i < result.Length && target == Unsettled(result[..], draws, i)
    {
      SettleOne(result[..], draws, i);
      SwapItems(result, i, draws[i]);
      i := i - 1;
    }
    AllSettled(result[..], draws);
  }

  method SwapItems<T>(a: array<T>, i: nat, j: nat)
    requires i < a.Length && j < a.Length
    modifies a
    ensures a[..] == Swap(old(a[..]), i, j)
  {
    a[i], a[j] := a[j], a[i];
  }

  method Slice<T>(items: array<T>) returns (copy: array<T>)
    ensures fresh(copy) && copy[..] == items[..]
  {
    copy := new T[items.Length](i requires 0 <= i < items.Length reads items => items[i]);
  }

  lemma SwapRearranges<T>(s: seq<T>, i: nat, j: nat)
    requires i < |s| && j < |s|
    ensures IsRearrangement(s, Swap(s, i, j))
  {
  }

  lemma RestStaysDistinct<T>(s: seq<T>, i: nat, j: nat)
    requires i < |s| && j < |s| && Distinct(s)
    ensures Distinct(Swap(s, i, j)[..i])
  {
  }

  lemma SplitLast<T>(s: seq<T>)
    requires s != []
    ensures multiset(s) == multiset(s[..|s|-1]) + multiset{s[|s|-1]}
  {
    assert s == s[..|s|-1] + [s[|s|-1]];
  }

  /** Two sequences with the same last item are rearrangements exactly when what precedes it is. */
  lemma SameLast<T>(s: seq<T>, p: seq<T>)
    requires s != [] && p != [] && s[|s|-1] == p[|p|-1]
    ensures IsRearrangement(s, p) <==> IsRearrangement(s[..|s|-1], p[..|p|-1])
  {
    SplitLast(s);
    SplitLast(p);
    var x := multiset{s[|s|-1]};
    assert multiset(s) - x == multiset(s[..|s|-1]) && multiset(p) - x == multiset(p[..|p|-1]);
  }

  /** A shuffle only rearranges. */
  lemma {:induction false} ShuffleRearranges<T>(s: seq<T>, draws: seq<nat>)
    requires ValidDraws(draws, |s|)
    ensures IsRearrangement(s, Shuffled(s, draws))
    decreases |s|
  {
    if s != [] {
      var n := |s| - 1;
      var t := Swap(s, n, draws[n]);
      SwapRearranges(s, n, draws[n]);
      ShuffleRearranges(t[..n], draws[..n]);
      var r := Shuffled(s, draws);
      assert r[..n] == Shuffled(t[..n], draws[..n]) && r[n] == t[n];
      SameLast(t, r);
    }
  }

  lemma LastDrawShows<T>(s: seq<T>, d: seq<nat>)
    requires ValidDraws(d, |s|) && s != []
    ensures var n, r := |s| - 1, Shuffled(s, d);
            && r[n] == s[d[n]]
            && r[..n] == Shuffled(Swap(s, n, d[n])[..n], d[..n])
  {
  }

  lemma SameLastDraw<T>(s: seq<T>, d: seq<nat>, e: seq<nat>)
    requires Distinct(s) && ValidDraws(d, |s|) && ValidDraws(e, |s|) && s != []
    requires Shuffled(s, d) == Shuffled(s, e)
    ensures var n := |s| - 1;
            && d[n] == e[n]
            && Shuffled(Swap(s, n, d[n])[..n], d[..n]) == Shuffled(Swap(s, n, d[n])[..n], e[..n])
  {
    LastDrawShows(s, d);
    LastDrawShows(s, e);
  }

  lemma SameDraws(d: seq<nat>, e: seq<nat>, n: nat)
    requires |d| == |e| == n + 1 && d[..n] == e[..n] && d[n] == e[n]
    ensures d == e
  {
    assert d == d[..n] + [d[n]] && e == e[..n] + [e[n]];
  }

  /** Different draws give different orders. */
  lemma {:induction false} DrawsAreDetermined<T>(s: seq<T>, d: seq<nat>, e: seq<nat>)
    requires Distinct(s) && ValidDraws(d, |s|) && ValidDraws(e, |s|)
    requires Shuffled(s, d) == Shuffled(s, e)
    ensures d == e
    decreases |s|
  {
    if s != [] {
      var n := |s| - 1;
      SameLastDraw(s, d, e);
      RestStaysDistinct(s, n, d[n]);
      DrawsAreDetermined(Swap(s, n, d[n])[..n], d[..n], e[..n]);
      SameDraws(d, e, n);
    }
  }

  function IndexIn<T(==)>(s: seq<T>, x: T): (i: nat)
    requires x in s
    ensures i < |s| && s[i] == x
  {
    if s[0] == x then 0 else 1 + IndexIn(s[1..], x)
  }

  /** The draws that produce the order p. */
  function DrawsFor<T(==)>(s: seq<T>, p: seq<T>): (d: seq<nat>)
    requires IsRearrangement(s, p)
    ensures ValidDraws(d, |s|)
    decreases |s|
  {
    SameLength(s, p);
    if s == [] then []
    else
      var n := |s| - 1;
      LastIsAnItem(s, p);
      var j := IndexIn(s, p[n]);
      RestIsRearranged(s, p, j);
      DrawsFor(Swap(s, n, j)[..n], p[..n]) + [j]
  }

  lemma SameLength<T>(s: seq<T>, p: seq<T>)
    requires IsRearrangement(s, p)
    ensures |s| == |p|
  {
    assert |multiset(s)| == |s| && |multiset(p)| == |p|;
  }

  lemma LastIsAnItem<T>(s: seq<T>, p: seq<T>)
    requires IsRearrangement(s, p) && |s| == |p| > 0
    ensures p[|p|-1] in s
  {
    assert p[|p|-1] in multiset(p);
  }

  lemma RestIsRearranged<T>(s: seq<T>, p: seq<T>, j: nat)
    requires IsRearrangement(s, p) && |s| == |p| > 0 && j < |s| && s[j] == p[|p|-1]
    ensures IsRearrangement(Swap(s, |s|-1, j)[..|s|-1], p[..|p|-1])
  {
    SwapRearranges(s, |s|-1, j);
    SameLast(Swap(s, |s|-1, j), p);
  }

  /** Every order is reached. */
  lemma {:induction false} EveryOrderIsDrawn<T>(s: seq<T>, p: seq<T>)
    requires IsRearrangement(s, p)
    ensures Shuffled(s, DrawsFor(s, p)) == p
    decreases |s|
  {
    SameLength(s, p);
    if s != [] {
      var n := |s| - 1;
      LastIsAnItem(s, p);
      var j := IndexIn(s, p[n]);
      RestIsRearranged(s, p, j);
      var t := Swap(s, n, j);
      EveryOrderIsDrawn(t[..n], p[..n]);
      var d := DrawsFor(s, p);
      assert d == DrawsFor(t[..n], p[..n]) + [j];
      ShuffledWithLast(s, DrawsFor(t[..n], p[..n]), j, p);
    }
  }

  lemma ShuffledWithLast<T>(s: seq<T>, rest: seq<nat>, j: nat, p: seq<T>)
    requires |s| == |p| > 0 && j < |s| && ValidDraws(rest, |s| - 1) && s[j] == p[|s|-1]
    requires Shuffled(Swap(s, |s|-1, j)[..|s|-1], rest) == p[..|s|-1]
    ensures ValidDraws(rest + [j], |s|) && Shuffled(s, rest + [j]) == p
  {
    assert (rest + [j])[..|s|-1] == rest;
    assert p == p[..|s|-1] + [p[|s|-1]];
  }

  /** On distinct items the draws map one-to-one onto the rearrangements: p comes out of exactly one sequence of
      draws, so independent uniform draws make every order equally likely. */
  lemma ShuffleIsUnbiased<T>(s: seq<T>, p: seq<T>, d: seq<nat>)
    requires Distinct(s) && ValidDraws(d, |s|)
    ensures IsRearrangement(s, Shuffled(s, d))
    ensures IsRearrangement(s, p) ==> (Shuffled(s, d) == p <==> d == DrawsFor(s, p))
  {
    ShuffleRearranges(s, d);
    if IsRearrangement(s, p) {
      EveryOrderIsDrawn(s, p);
      if Shuffled(s, d) == p {
        DrawsAreDetermined(s, d, DrawsFor(s, p));
      }
    }
  }

  // ----- Next and previous -----

  datatype LoopMode = Off | One | All

  function Identity(n: nat): seq<int> { seq(n, i => i) }

  function ActiveOrder(n: nat, order: Option<seq<int>>): (r: seq<int>)
    ensures |r| == n
  {
    if order.Some? && |order.value| == n then order.value else Identity(n)
  }

  /** First position of x, or -1. */
  function IndexOf(s: seq<int>, x: int): int {
    if s == [] then -1
    else if s[0] == x then 0
    else
      var i := IndexOf(s[1..], x);
      if i < 0 then -1 else i + 1
  }

  function GetNextIndex(n: nat, current: int, mode: LoopMode, order: Option<seq<int>>): Option<int> {
    if n == 0 then None
    else
      var active := ActiveOrder(n, order);
      IndexOfRange(active, current);
      var next := IndexOf(active, current) + 1;
      if next < |active| then Some(active[next])
      else if mode == All then Some(active[0])
      else None
  }

  function GetPreviousIndex(n: nat, current: int, mode: LoopMode, order: Option<seq<int>>): Option<int> {
    if n == 0 then None
    else
      var active := ActiveOrder(n, order);
      IndexOfRange(active, current);
      var prev := IndexOf(active, current) - 1;
      if prev >= 0 then Some(active[prev])
      else if mode == All then Some(active[|active| - 1])
      else None
  }

  lemma {:induction false} IndexOfRange(s: seq<int>, x: int)
    ensures -1 <= IndexOf(s, x) < |s|
    ensures IndexOf(s, x) >= 0 <==> x in s
    ensures IndexOf(s, x) >= 0 ==> s[IndexOf(s, x)] == x
    decreases |s|
  {
    if s != [] {
      IndexOfRange(s[1..], x);
      assert s == [s[0]] + s[1..];
    }
  }

  lemma IndexOfDistinct(s: seq<int>, i: nat)
    requires Distinct(s) && i < |s|
    ensures IndexOf(s, s[i]) == i
  {
    IndexOfRange(s, s[i]);
  }

  /** Every queue index is in the order exactly once. */
  predicate IsQueueOrder(s: seq<int>, n: nat) {
    |s| == n && Distinct(s) && forall i :: 0 <= i < n ==> i in s
  }

  lemma IdentityIsAnOrder(n: nat)
    ensures IsQueueOrder(Identity(n), n)
  {
    forall i | 0 <= i < n ensures i in Identity(n) {
      assert Identity(n)[i] == i;
    }
  }

  /** Going back undoes going forward, and going forward undoes going back, wherever the first move is possible. */
  lemma NextAndPreviousUndoEachOther(n: nat, current: int, mode: LoopMode, order: Option<seq<int>>)
    requires IsQueueOrder(ActiveOrder(n, order), n) && 0 <= current < n
    ensures var next := GetNextIndex(n, current, mode, order);
            next.Some? ==> GetPreviousIndex(n, next.value, mode, order) == Some(current)
    ensures var prev := GetPreviousIndex(n, current, mode, order);
            prev.Some? ==> GetNextIndex(n, prev.value, mode, order) == Some(current)
  {
    var active := ActiveOrder(n, order);
    IndexOfRange(active, current);
    var pos := IndexOf(active, current);
    assert active[pos] == current;
    if pos + 1 < n { IndexOfDistinct(active, pos + 1); }
    if pos > 0 { IndexOfDistinct(active, pos - 1); }
    IndexOfDistinct(active, 0);
    IndexOfDistinct(active, n - 1);
  }

  /** Where k presses of "next" lead, starting from `from`; None once playback has stopped. */
  function Walk(n: nat, from: int, mode: LoopMode, order: Option<seq<int>>, k: nat): Option<int> {
    if k == 0 then Some(from)
    else
      match Walk(n, from, mode, order, k - 1)
      case None => None
      case Some(at) => GetNextIndex(n, at, mode, order)
  }

  lemma NextAfter(n: nat, mode: LoopMode, order: Option<seq<int>>, i: nat)
    requires IsQueueOrder(ActiveOrder(n, order), n) && i < n
    ensures var active := ActiveOrder(n, order);
            GetNextIndex(n, active[i], mode, order) ==
              if i + 1 < n then Some(active[i + 1]) else if mode == All then Some(active[0]) else None
  {
    IndexOfDistinct(ActiveOrder(n, order), i);
  }

  lemma {:induction false} WalkFollowsTheOrder(n: nat, mode: LoopMode, order: Option<seq<int>>, k: nat)
    requires n > 0 && IsQueueOrder(ActiveOrder(n, order), n)
    ensures var active := ActiveOrder(n, order);
            Walk(n, active[0], mode, order, k) ==
              if k < n then Some(active[k]) else if mode == All then Some(active[k % n]) else None
    decreases k
  {
    if k > 0 {
      WalkFollowsTheOrder(n, mode, order, k - 1);
      NextRemainder(k, n);
      SmallRemainder(k - 1, n);
      SmallRemainder(k, n);
      NextAfter(n, mode, order, (k - 1) % n);
    }
  }

  lemma SmallRemainder(k: nat, n: nat)
    requires n > 0
    ensures k < n ==> k % n == k
  {
    if k < n { RemainderIs(k, n, 0, k); }
  }

  lemma NextRemainder(k: nat, n: nat)
    requires n > 0 && k > 0
    ensures k % n == if (k - 1) % n + 1 == n then 0 else (k - 1) % n + 1
  {
    var q, r := (k - 1) / n, (k - 1) % n;
    assert k == q * n + r + 1;
    if r + 1 == n {
      assert k == (q + 1) * n + 0;
      RemainderIs(k, n, q + 1, 0);
    } else {
      RemainderIs(k, n, q, r + 1);
    }
  }

  lemma RemainderIs(k: nat, n: nat, q: nat, r: nat)
    requires r < n && k == q * n + r
    ensures k % n == r
  {
    var d := k / n - q;
    assert k % n == r - d * n;
  }

  /** Track t is reached within the first n tracks played. */
  ghost predicate Plays(n: nat, from: int, mode: LoopMode, order: Option<seq<int>>, t: int) {
    exists k: nat :: k < n && Walk(n, from, mode, order, k) == Some(t)
  }

  /** Without looping, n tracks are played, each exactly once, and then playback stops for good. */
  lemma PlaysEveryTrackOnce(n: nat, mode: LoopMode, order: Option<seq<int>>)
    requires n > 0 && mode != All && IsQueueOrder(ActiveOrder(n, order), n)
    ensures var first := ActiveOrder(n, order)[0];
            && (forall t :: 0 <= t < n ==> Plays(n, first, mode, order, t))
            && (forall i: nat, j: nat :: i < j < n ==> Walk(n, first, mode, order, i) != Walk(n, first, mode, order, j))
            && (forall k: nat :: k >= n ==> Walk(n, first, mode, order, k) == None)
  {
    var active := ActiveOrder(n, order);
    forall k: nat
      ensures Walk(n, active[0], mode, order, k) == if k < n then Some(active[k]) else None
    {
      WalkFollowsTheOrder(n, mode, order, k);
    }
    forall t | 0 <= t < n
      ensures Plays(n, active[0], mode, order, t)
    {
      IndexOfRange(active, t);
      var k: nat := IndexOf(active, t);
      assert Walk(n, active[0], mode, order, k) == Some(t);
    }
  }

  /** Without a shuffle order the tracks are played in queue order. */
  lemma WalkWithoutShuffle(n: nat, mode: LoopMode, k: nat)
    requires n > 0
    ensures Walk(n, 0, mode, None, k) == if k < n then Some(k) else if mode == All then Some(k % n) else None
  {
    IdentityIsAnOrder(n);
    WalkFollowsTheOrder(n, mode, None, k);
  }

  /** With a shuffle order of all tracks they are played in that order; an order of another length is ignored, and they
      are played in queue order. */
  lemma WalkWithShuffle(n: nat, mode: LoopMode, order: seq<int>, k: nat)
    requires n > 0
    ensures IsQueueOrder(order, n) ==>
              Walk(n, order[0], mode, Some(order), k)
              == if k < n then Some(order[k]) else if mode == All then Some(order[k % n]) else None
    ensures |order| != n ==>
              Walk(n, 0, mode, Some(order), k)
              == if k < n then Some(k) else if mode == All then Some(k % n) else None
  {
    IdentityIsAnOrder(n);
    if |order| != n || IsQueueOrder(order, n) {
      WalkFollowsTheOrder(n, mode, Some(order), k);
    }
  }

  /** A current track that is not in the order, like none at all, is followed by the order's first, and preceded by its
      last only when looping over all. An empty queue has neither. */
  lemma NextOfAnUnknownTrack(n: nat, current: int, mode: LoopMode, order: seq<int>)
    requires current !in order
    ensures |order| == n > 0 ==>
              GetNextIndex(n, current, mode, Some(order)) == Some(order[0])
              && GetPreviousIndex(n, current, mode, Some(order)) == if mode == All then Some(order[n-1]) else None
    ensures n == 0 ==> GetNextIndex(n, current, mode, Some(order)).None?
    ensures n == 0 ==> GetPreviousIndex(n, current, mode, Some(order)).None?
  {
    IndexOfRange(order, current);
  }

  /** Looping over all, the walk repeats after n presses and after no smaller number. */
  lemma LoopsWithPeriodN(n: nat, order: Option<seq<int>>, k: nat)
    requires n > 0 && IsQueueOrder(ActiveOrder(n, order), n)
    ensures var first := ActiveOrder(n, order)[0];
            && Walk(n, first, All, order, k + n) == Walk(n, first, All, order, k)
            && (0 < k < n ==> Walk(n, first, All, order, k) != Some(first))
  {
    WalkFollowsTheOrder(n, All, order, k);
    WalkFollowsTheOrder(n, All, order, k + n);
    SameRemainder(k, n);
  }

  lemma SameRemainder(k: nat, n: nat)
    requires n > 0
    ensures (k + n) % n == k % n
    ensures k < n ==> k % n == k
  {
    RemainderIs(k + n, n, k / n + 1, k % n);
  }

  // ----- Turning shuffle on -----

  /** The other queue entries, in queue order. */
  function Others(n: nat, current: int): seq<int> {
    if n == 0 then []
    else Others(n - 1, current) + (if n - 1 != current then [n - 1] else [])
  }

  /** The order installed when shuffle is switched on: the current track, then the others shuffled. */
  function ShuffleOrder(n: nat, current: int, draws: seq<nat>): seq<int>
    requires ValidDraws(draws, |Others(n, current)|)
  {
    [current] + Shuffled(Others(n, current), draws)
  }

  lemma {:induction false} OthersAreTheRest(n: nat, current: int)
    ensures forall x :: x in Others(n, current) <==> 0 <= x < n && x != current
    ensures Distinct(Others(n, current))
    ensures |Others(n, current)| == if 0 <= current < n then n - 1 else n
    decreases n
  {
    if n > 0 {
      OthersAreTheRest(n - 1, current);
      var rest := Others(n - 1, current);
      assert forall i :: 0 <= i < |rest| ==> rest[i] in rest;
    }
  }

  lemma RearrangedSet<T>(s: seq<T>, p: seq<T>)
    requires IsRearrangement(s, p) && Distinct(s)
    ensures Distinct(p) && |p| == |s| && forall x :: x in p <==> x in s
  {
    SameLength(s, p);
    forall x ensures x in p <==> x in s {
      assert x in multiset(p) <==> x in p;
      assert x in multiset(s) <==> x in s;
    }
    forall i, j | 0 <= i < j < |p|
      ensures p[i] != p[j]
    {
      if p[i] == p[j] {
        var a, b := p[..j], p[j..];
        assert p == a + b && p[i] == a[i] && p[i] == b[0];
        assert multiset(p)[p[i]] == multiset(a)[p[i]] + multiset(b)[p[i]] >= 2;
        DistinctCounts(s, p[i]);
      }
    }
  }

  lemma {:induction false} DistinctCounts<T>(s: seq<T>, x: T)
    requires Distinct(s)
    ensures multiset(s)[x] <= 1
    decreases |s|
  {
    if s != [] {
      var n := |s| - 1;
      SplitLast(s);
      DistinctCounts(s[..n], x);
      if s[n] == x { assert x !in s[..n]; }
    }
  }

  /** Whatever is drawn, switching shuffle on at `current` plays every other track exactly once, starting here. */
  lemma ShuffleOrderIsAnOrder(n: nat, current: int, draws: seq<nat>)
    requires 0 <= current < n && ValidDraws(draws, |Others(n, current)|)
    ensures IsQueueOrder(ShuffleOrder(n, current, draws), n)
    ensures ActiveOrder(n, Some(ShuffleOrder(n, current, draws)))[0] == current
  {
    var rest := Others(n, current);
    OthersAreTheRest(n, current);
    ShuffleRearranges(rest, draws);
    RearrangedSet(rest, Shuffled(rest, draws));
    CurrentThenOthers(n, current, Shuffled(rest, draws));
  }

  /** Switched on while no track is current, the order is one entry too long, and playback goes on in queue order. */
  lemma ShuffleWithoutATrackIsIgnored(n: nat, current: int, draws: seq<nat>, mode: LoopMode, k: nat)
    requires n > 0 && !(0 <= current < n) && ValidDraws(draws, |Others(n, current)|)
    ensures Walk(n, 0, mode, Some(ShuffleOrder(n, current, draws)), k) == Walk(n, 0, mode, None, k)
  {
    OthersAreTheRest(n, current);
    WalkWithShuffle(n, mode, ShuffleOrder(n, current, draws), k);
    WalkWithoutShuffle(n, mode, k);
  }

  lemma CurrentThenOthers(n: nat, current: int, tail: seq<int>)
    requires 0 <= current < n && Distinct(tail) && |tail| == n - 1
    requires forall x :: x in tail <==> 0 <= x < n && x != current
    ensures IsQueueOrder([current] + tail, n)
  {
    var order := [current] + tail;
    assert forall i :: 0 < i < n ==> order[i] == tail[i-1] && tail[i-1] in tail;
    forall i | 0 <= i < n ensures i in order {
      assert i in tail || i == order[0];
    }
  }
}

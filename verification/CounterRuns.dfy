/** What window-by-window deltas add up to when a counter may go back, and its stream may be absent at times. */
module CounterRuns {
  import opened Options

  function Positive(x: int): nat { if x > 0 then x else 0 }

  function FirstSeen(cs: seq<Option<int>>): Option<int> {
    if cs == [] then None
    else
      var before := FirstSeen(cs[..|cs|-1]);
      if before.Some? then before else cs[|cs|-1]
  }

  function LastSeen(cs: seq<Option<int>>): Option<int> {
    if cs == [] then None
    else if cs[|cs|-1].Some? then cs[|cs|-1]
    else LastSeen(cs[..|cs|-1])
  }

  /** From the first reading to the last. */
  function Growth(cs: seq<Option<int>>): int {
    if FirstSeen(cs).Some? && LastSeen(cs).Some? then LastSeen(cs).value - FirstSeen(cs).value else 0
  }

  predicate BothSeen(cs: seq<Option<int>>) { |cs| >= 2 && cs[|cs|-2].Some? && cs[|cs|-1].Some? }

  /** The stream is back after having been absent. */
  predicate Reappears(cs: seq<Option<int>>) {
    |cs| >= 2 && cs[|cs|-1].Some? && cs[|cs|-2].None? && LastSeen(cs[..|cs|-1]).Some?
  }

  /** What the windows count: growth between two successive reports that both have the stream. */
  function Counted(cs: seq<Option<int>>): nat {
    if cs == [] then 0
    else Counted(cs[..|cs|-1]) + if BothSeen(cs) then Positive(cs[|cs|-1].value - cs[|cs|-2].value) else 0
  }

  /** By how much the counter went back between such reports. */
  function Resets(cs: seq<Option<int>>): nat {
    if cs == [] then 0
    else Resets(cs[..|cs|-1]) + if BothSeen(cs) then Positive(cs[|cs|-2].value - cs[|cs|-1].value) else 0
  }

  /** How far the counter moved while its stream was absent. */
  function Skipped(cs: seq<Option<int>>): int {
    if cs == [] then 0
    else Skipped(cs[..|cs|-1]) + if Reappears(cs) then cs[|cs|-1].value - LastSeen(cs[..|cs|-1]).value else 0
  }

  predicate NeverBack(cs: seq<Option<int>>) {
    forall i, j :: 0 <= i < j < |cs| && cs[i].Some? && cs[j].Some? ==> cs[i].value <= cs[j].value
  }

  predicate Unbroken(cs: seq<Option<int>>) {
    forall i, j, k :: 0 <= i < j < k < |cs| && cs[i].Some? && cs[k].Some? ==> cs[j].Some?
  }

  /** Whenever the stream is back its counter is what it was when last seen. */
  predicate StillWhenAbsent(cs: seq<Option<int>>) {
    cs == [] || (StillWhenAbsent(cs[..|cs|-1]) && (Reappears(cs) ==> cs[|cs|-1] == LastSeen(cs[..|cs|-1])))
  }

  /** `total` is what a stream with these readings really adds up to. */
  ghost predicate Accounts(total: int, cs: seq<Option<int>>) {
    && total == Growth(cs) + Resets(cs) - Skipped(cs)
    && (Unbroken(cs) ==> total >= Growth(cs) && (total == Growth(cs) <==> NeverBack(cs)))
    && (NeverBack(cs) ==> total <= Growth(cs) && (total == Growth(cs) <==> StillWhenAbsent(cs)))
  }

  lemma {:induction false} SeenTogether(cs: seq<Option<int>>)
    ensures FirstSeen(cs).Some? <==> LastSeen(cs).Some?
    decreases |cs|
  {
    if cs != [] {
      SeenTogether(cs[..|cs|-1]);
    }
  }

  lemma {:induction false} LastSeenAt(cs: seq<Option<int>>) returns (i: nat)
    requires LastSeen(cs).Some?
    ensures i < |cs| && cs[i] == LastSeen(cs) && forall j :: i < j < |cs| ==> cs[j].None?
    decreases |cs|
  {
    i := |cs| - 1;
    if cs[i].None? {
      i := LastSeenAt(cs[..i]);
    }
  }

  lemma {:induction false} Balance(cs: seq<Option<int>>)
    ensures Counted(cs) == Growth(cs) + Resets(cs) - Skipped(cs)
    decreases |cs|
  {
    if cs != [] {
      var prev := cs[..|cs|-1];
      Balance(prev);
      SeenTogether(prev);
      if cs[|cs|-1].Some? && LastSeen(prev).Some? {
        var i := LastSeenAt(prev);
        assert prev != [] && prev[|prev|-1] == cs[|cs|-2];
      }
    }
  }

  lemma {:induction false} UnbrokenResets(cs: seq<Option<int>>)
    requires Unbroken(cs)
    ensures Skipped(cs) == 0 && (Resets(cs) == 0 <==> NeverBack(cs))
    decreases |cs|
  {
    if cs != [] {
      var n := |cs| - 1;
      var prev := cs[..n];
      assert forall i :: 0 <= i < n ==> prev[i] == cs[i];
      UnbrokenResets(prev);
      if cs[n].Some? && LastSeen(prev).Some? {
        var i := LastSeenAt(prev);
        assert i == n - 1;
        assert NeverBack(cs) <==> NeverBack(prev) && cs[n-1].value <= cs[n].value;
      } else if cs[n].Some? {
        NothingSeen(prev);
      }
    }
  }

  lemma {:induction false} NothingSeen(cs: seq<Option<int>>)
    requires LastSeen(cs).None?
    ensures forall i :: 0 <= i < |cs| ==> cs[i].None?
    decreases |cs|
  {
    if cs != [] {
      NothingSeen(cs[..|cs|-1]);
    }
  }

  lemma {:induction false} NeverBackSkips(cs: seq<Option<int>>)
    requires NeverBack(cs)
    ensures Resets(cs) == 0 && Skipped(cs) >= 0 && (Skipped(cs) == 0 <==> StillWhenAbsent(cs))
    decreases |cs|
  {
    if cs != [] {
      var prev := cs[..|cs|-1];
      assert forall i :: 0 <= i < |prev| ==> prev[i] == cs[i];
      NeverBackSkips(prev);
      if Reappears(cs) {
        var i := LastSeenAt(prev);
        assert cs[i].value <= cs[|cs|-1].value;
      }
    }
  }

  /** What is counted is the growth, plus what resets took back, less what was missed while the stream was absent. So a
      stream in every report counts exactly its growth if and only if it never goes back, and one that never goes back
      counts exactly its growth if and only if it stands still whenever it is absent. */
  lemma CountedAccounts(cs: seq<Option<int>>)
    ensures Accounts(Counted(cs), cs)
  {
    Balance(cs);
    if Unbroken(cs) { UnbrokenResets(cs); }
    if NeverBack(cs) { NeverBackSkips(cs); }
  }
}

/** When a channel can load another page, and what repeated loading reaches. */
module MessageWindowLoading {
  import opened Options
  import opened MessageWindow
  import opened MessageWindowProofs
  import opened MessageWindowRuns

  // ----- A loading flag never outlives its fetch -----

  ghost predicate Outstanding(s: State, older: bool) {
    exists i :: 0 <= i < |s.inFlight| && if older then s.inFlight[i].Older? else s.inFlight[i].Newer?
  }

  /** A channel that is loading a page has a fetch of that page on its way. */
  ghost predicate LoadingIsOutstanding(s: State) {
    s.channel.page.Some? ==>
      && (s.channel.page.value.isLoadingMore ==> Outstanding(s, true))
      && (s.channel.page.value.isLoadingNewer ==> Outstanding(s, false))
  }

  lemma BeginsOutstanding(s: State, f: Fetch)
    requires LoadingIsOutstanding(s) && Enabled(s, Begins(f))
    ensures LoadingIsOutstanding(Step(s, Begins(f)))
  {
    var s' := Step(s, Begins(f));
    assert s'.inFlight[|s.inFlight|] == f;
    assert forall i :: 0 <= i < |s.inFlight| ==> s'.inFlight[i] == s.inFlight[i];
  }

  lemma EndsOutstanding(s: State, s': State)
    requires LoadingIsOutstanding(s) && s.inFlight != [] && s'.inFlight == s.inFlight[1..]
    requires s'.channel.page.Some? && s'.channel.page.value.isLoadingMore ==>
               !s.inFlight[0].Older? && s.channel.page.Some? && s.channel.page.value.isLoadingMore
    requires s'.channel.page.Some? && s'.channel.page.value.isLoadingNewer ==>
               !s.inFlight[0].Newer? && s.channel.page.Some? && s.channel.page.value.isLoadingNewer
    ensures LoadingIsOutstanding(s')
  {
    assert forall i :: 0 < i < |s.inFlight| ==> s'.inFlight[i-1] == s.inFlight[i];
  }

  lemma OutstandingStep(s: State, e: Event)
    requires LoadingIsOutstanding(s) && Enabled(s, e)
    ensures LoadingIsOutstanding(Step(s, e))
  {
    match e
    case Begins(f) => BeginsOutstanding(s, f);
    case Answers => EndsOutstanding(s, Step(s, e));
    case Delivers => EndsOutstanding(s, Step(s, e));
    case Fails => EndsOutstanding(s, Step(s, e));
    case _ => assert Step(s, e).inFlight == s.inFlight && Step(s, e).channel.page == s.channel.page;
  }

  lemma {:induction false} OutstandingRun(s: State, es: seq<Event>)
    requires LoadingIsOutstanding(s) && IsRun(s, es)
    ensures LoadingIsOutstanding(After(s, es))
    decreases es
  {
    if es != [] {
      OutstandingStep(s, es[0]);
      OutstandingRun(Step(s, es[0]), es[1..]);
    }
  }

  /** In every run, whatever is answered, lost or replaced. */
  lemma LoadingEndsWithItsFetch(history: seq<Message>, nextId: int, es: seq<Event>)
    requires IsRun(Start(history, nextId), es)
    ensures LoadingIsOutstanding(After(Start(history, nextId), es))
  {
    OutstandingRun(Start(history, nextId), es);
  }

  lemma {:induction false} OrderlyPages(s: State, es: seq<Event>)
    requires PagesFirst(s) && IsRun(s, es) && AllOrderly(s, es)
    ensures PagesFirst(After(s, es))
    decreases es
  {
    if es != [] {
      OrderlyStep(s, es[0]);
      OrderlyPages(Step(s, es[0]), es[1..]);
    }
  }

  /** And when no page is begun beside a jump, a reset, a rollback or an initial load, a channel is loading exactly
      while the fetch is on its way. */
  lemma LoadingIffOutstanding(history: seq<Message>, nextId: int, es: seq<Event>)
    requires IsRun(Start(history, nextId), es) && AllOrderly(Start(history, nextId), es)
    ensures var s := After(Start(history, nextId), es);
            && (Outstanding(s, true) <==> s.channel.page.Some? && s.channel.page.value.isLoadingMore)
            && (Outstanding(s, false) <==> s.channel.page.Some? && s.channel.page.value.isLoadingNewer)
  {
    OrderlyPages(Start(history, nextId), es);
    OutstandingRun(Start(history, nextId), es);
    var s := After(Start(history, nextId), es);
    assert forall i :: 0 <= i < |s.inFlight| ==> Current(s.channel, s.inFlight[i]);
  }

  // ----- The other marks of a channel -----

  /** An initial load has been answered, or a jump has been asked for. */
  predicate Loads(s: State, e: Event)
    requires Enabled(s, e)
  {
    (e.Begins? && e.fetch.Jump?) || (e.Answers? && s.inFlight[0].Initial?)
  }

  predicate EverLoads(s: State, es: seq<Event>)
    requires IsRun(s, es)
    decreases es
  {
    es != [] && (Loads(s, es[0]) || EverLoads(Step(s, es[0]), es[1..]))
  }

  lemma {:induction false} LoadedRun(s: State, es: seq<Event>)
    requires IsRun(s, es)
    ensures After(s, es).channel.loaded <==> s.channel.loaded || EverLoads(s, es)
    decreases es
  {
    if es != [] {
      assert Step(s, es[0]).channel.loaded <==> s.channel.loaded || Loads(s, es[0]);
      LoadedRun(Step(s, es[0]), es[1..]);
    }
  }

  /** A channel's initial load may begin exactly until one has been answered or a jump has been asked for. */
  lemma InitialLoadMayBeginIff(history: seq<Message>, nextId: int, es: seq<Event>)
    requires IsRun(Start(history, nextId), es)
    ensures MayBegin(After(Start(history, nextId), es).channel, Initial) <==> !EverLoads(Start(history, nextId), es)
  {
    LoadedRun(Start(history, nextId), es);
  }

  /** A page of older messages has failed; since then none has been begun or answered, and nothing has replaced the
      list. */
  predicate FailureShown(s: State, es: seq<Event>, before: bool)
    requires IsRun(s, es)
    decreases es
  {
    if es == [] then before
    else
      var e := es[0];
      FailureShown(Step(s, e), es[1..],
                   if e.Fails? && s.inFlight[0].Older? then true
                   else if e.Begins? && e.fetch.Older? then false
                   else if e.Answers? && !s.inFlight[0].Rollback? then false
                   else if e.Delivers? && s.inFlight[0].Jump? then false
                   else before)
  }

  lemma {:induction false} ErrorRun(s: State, es: seq<Event>, before: bool)
    requires IsRun(s, es) && (s.channel.page.Some? ==> s.channel.page.value.error == before)
    ensures After(s, es).channel.page.Some? ==> After(s, es).channel.page.value.error == FailureShown(s, es, before)
    decreases es
  {
    if es != [] {
      var e := es[0];
      ErrorRun(Step(s, e), es[1..],
               if e.Fails? && s.inFlight[0].Older? then true
               else if e.Begins? && e.fetch.Older? then false
               else if e.Answers? && !s.inFlight[0].Rollback? then false
               else if e.Delivers? && s.inFlight[0].Jump? then false
               else before);
    }
  }

  lemma ErrorIsShownIff(history: seq<Message>, nextId: int, es: seq<Event>)
    requires IsRun(Start(history, nextId), es)
    ensures var s := After(Start(history, nextId), es);
            s.channel.page.Some? ==> s.channel.page.value.error == FailureShown(Start(history, nextId), es, false)
  {
    ErrorRun(Start(history, nextId), es, false);
  }

  // ----- Paging back -----

  /** Nothing is on its way, and the channel has its cursors. */
  ghost predicate Resting(s: State, lo: nat, hi: nat) {
    && WellFormed(s) && s.inFlight == [] && s.served.None? && !s.unannounced
    && LoadingIsOutstanding(s) && s.channel.page.Some? && WindowAt(s, lo, hi)
  }

  lemma RestingIsInv(s: State, lo: nat, hi: nat)
    requires Resting(s, lo, hi)
    ensures Inv(s) && PagesFirst(s) && UpToDate(s)
  {
  }

  /** With nothing on its way, a list that does not begin at the start of the history can load an older page, and one
      that lacks newer messages can load a newer page. */
  lemma RestingCanLoad(s: State, lo: nat, hi: nat)
    requires LoadingIsOutstanding(s) && s.inFlight == [] && s.channel.page.Some? && WindowAt(s, lo, hi)
    ensures lo > 0 ==> CanLoadOlder(s.channel)
    ensures hi < Told(s) ==> CanLoadNewer(s.channel)
    ensures MidHistory(s.channel) <==> CanLoadNewer(s.channel)
  {
  }

  function PageStart(lo: nat): nat { if lo > PAGE_LIMIT then lo - PAGE_LIMIT else 0 }

  function PageEnd(h: seq<Message>, hi: nat): nat {
    if |h| > hi + PAGE_LIMIT then hi + PAGE_LIMIT else |h|
  }

  /** One page back: begun and answered, it extends the list by as much as a page holds. */
  lemma OlderPageLoads(s: State, lo: nat, hi: nat)
    requires Resting(s, lo, hi) && lo > 0
    ensures CanLoadOlder(s.channel)
    ensures var e := Begins(Older(s.channel.page.value.cursor.value));
            && Enabled(s, e) && Enabled(Step(s, e), Answers)
            && Resting(Step(Step(s, e), Answers), PageStart(lo), hi)
            && Step(Step(s, e), Answers).history == s.history
  {
    RestingCanLoad(s, lo, hi);
    var c := s.channel.page.value.cursor.value;
    var s1 := Step(s, Begins(Older(c)));
    assert s1.inFlight == [Older(c)];
    SameWindowAt(s, s1, lo, hi);
    PositionIs(s.history, c, lo);
    OutstandingStep(s, Begins(Older(c)));
    OlderPageArrives(s1, c, lo, hi);
  }

  lemma OlderPageArrives(s: State, c: int, lo: nat, hi: nat)
    requires WellFormed(s) && s.inFlight == [Older(c)] && s.served.None? && !s.unannounced && LoadingIsOutstanding(s)
    requires s.channel.page.Some? && WindowAt(s, lo, hi) && lo > 0 && Position(s.history, c) == lo
    ensures Enabled(s, Answers)
    ensures Resting(Step(s, Answers), PageStart(lo), hi) && Step(s, Answers).history == s.history
  {
    OlderWindow(s, PageStart(lo), lo, hi, GetMessages(s.history, PAGE_LIMIT, Some(c)));
    SameWindowAt(WithOlderPage(s, c), Step(s, Answers), PageStart(lo), hi);
    OutstandingStep(s, Answers);
  }

  lemma SameWindowAt(s: State, s': State, lo: nat, hi: nat)
    requires WindowAt(s, lo, hi) && s'.history == s.history && s'.unannounced == s.unannounced
    requires s'.nextId == s.nextId && s'.channel.list == s.channel.list
    requires s'.channel.page == s.channel.page ||
             (s.channel.page.Some? && s'.channel.page.Some? && SameCursors(s.channel.page.value, s'.channel.page.value))
    ensures WindowAt(s', lo, hi)
  {
    assert ShowsSegment(s', Listed(s'.channel), lo, hi);
  }

  /** Only pages are asked for, and all of them are answered. */
  predicate OnlyPages(es: seq<Event>) {
    forall e :: e in es ==> (e.Begins? && IsPaging(e.fetch)) || e.Answers? || e.Serves? || e.Delivers?
  }

  /** Pages enough to hold n messages. */
  function PagesFor(n: nat): nat { (n + PAGE_LIMIT - 1) / PAGE_LIMIT }

  lemma {:induction false} RunOn(s: State, es: seq<Event>, fs: seq<Event>)
    requires IsRun(s, es) && IsRun(After(s, es), fs)
    ensures IsRun(s, es + fs) && After(s, es + fs) == After(After(s, es), fs)
    decreases es
  {
    if es == [] {
      assert es + fs == fs;
    } else {
      assert (es + fs)[0] == es[0] && (es + fs)[1..] == es[1..] + fs;
      RunOn(Step(s, es[0]), es[1..], fs);
    }
  }

  lemma PageBack(s: State, lo: nat, hi: nat) returns (es: seq<Event>)
    requires Resting(s, lo, hi) && lo > 0
    ensures IsRun(s, es) && OnlyPages(es) && |es| == 2
    ensures Resting(After(s, es), PageStart(lo), hi) && After(s, es).history == s.history
  {
    OlderPageLoads(s, lo, hi);
    var e := Begins(Older(s.channel.page.value.cursor.value));
    es := FirstStep(Step(s, e), Answers, []);
    es := FirstStep(s, e, es);
  }

  lemma {:induction false} PagingBack(s: State, lo: nat, hi: nat) returns (es: seq<Event>)
    requires Resting(s, lo, hi)
    ensures IsRun(s, es) && OnlyPages(es) && |es| == 2 * PagesFor(lo)
    ensures Resting(After(s, es), 0, hi) && After(s, es).history == s.history
    decreases lo
  {
    if lo == 0 {
      es := [];
    } else {
      var page := PageBack(s, lo, hi);
      var rest := PagingBack(After(s, page), PageStart(lo), hi);
      RunOn(s, page, rest);
      OnePageLess(lo);
      es := page + rest;
    }
  }

  lemma OnePageLess(lo: nat)
    requires lo > 0
    ensures PagesFor(lo) == 1 + PagesFor(PageStart(lo))
  {
  }

  // ----- Paging forward -----

  lemma NewerPageIs(s: State, lo: nat, hi: nat)
    requires Resting(s, lo, hi) && MidHistory(s.channel)
    ensures var c := s.channel.page.value.newerCursor.value;
            && Position(s.history, c + 1) == hi && c + 1 < s.nextId
            && ServedNewer(s.history, s.nextId, c)
               == NewerAnswer(s.history, s.nextId, c, hi, PageEnd(s.history, hi))
  {
    var c := s.channel.page.value.newerCursor.value;
    PositionIs(s.history, c + 1, hi);
    ServedNewerIs(s.history, s.nextId, c, PageEnd(s.history, hi));
  }

  /** One page forward: begun, read and delivered, it extends the list by as much as a page holds, and says truly
      whether more is to come. */
  lemma NewerPageLoads(s: State, lo: nat, hi: nat)
    requires Resting(s, lo, hi) && MidHistory(s.channel)
    ensures CanLoadNewer(s.channel)
    ensures var e := Begins(Newer(s.channel.page.value.newerCursor.value));
            && Enabled(s, e) && Enabled(Step(s, e), Serves) && Enabled(Step(Step(s, e), Serves), Delivers)
            && var s' := Step(Step(Step(s, e), Serves), Delivers);
               && Resting(s', lo, PageEnd(s.history, hi)) && s'.history == s.history
               && (MidHistory(s'.channel) <==> PageEnd(s.history, hi) < |s.history|)
  {
    RestingCanLoad(s, lo, hi);
    var c := s.channel.page.value.newerCursor.value;
    NewerPageIs(s, lo, hi);
    var s1 := Step(s, Begins(Newer(c)));
    assert s1.inFlight == [Newer(c)];
    var s2 := Step(s1, Serves);
    SameWindowAt(s, s2, lo, hi);
    OutstandingStep(s, Begins(Newer(c)));
    OutstandingStep(s1, Serves);
    NewerPageArrives(s2, c, lo, hi);
  }

  lemma NewerPageArrives(s: State, c: int, lo: nat, hi: nat)
    requires WellFormed(s) && s.inFlight == [Newer(c)] && !s.unannounced && LoadingIsOutstanding(s)
    requires s.channel.page.Some? && WindowAt(s, lo, hi) && c + 1 < s.nextId && Position(s.history, c + 1) == hi
    requires s.served == Some(NewerAnswer(s.history, s.nextId, c, hi, PageEnd(s.history, hi)))
    requires s.served.value == ServedNewer(s.history, s.nextId, c)
    ensures Enabled(s, Delivers)
    ensures var s' := Step(s, Delivers);
            && Resting(s', lo, PageEnd(s.history, hi)) && s'.history == s.history
            && (MidHistory(s'.channel) <==> PageEnd(s.history, hi) < |s.history|)
  {
    NewerPageFits(s, c, lo, hi);
    SameWindowAt(WithNewerPage(s, s.served.value.answer), Step(s, Delivers), lo, PageEnd(s.history, hi));
    OutstandingStep(s, Delivers);
  }

  lemma NewerPageFits(s: State, c: int, lo: nat, hi: nat)
    requires WellFormed(s) && s.channel.page.Some? && WindowAt(s, lo, hi)
    requires c + 1 < s.nextId && Position(s.history, c + 1) == hi
    requires s.served == Some(NewerAnswer(s.history, s.nextId, c, hi, PageEnd(s.history, hi)))
    requires s.served.value == ServedNewer(s.history, s.nextId, c)
    ensures WindowAt(WithNewerPage(s, s.served.value.answer), lo, PageEnd(s.history, hi))
  {
    NewerIsTrue(s, c);
    ServedNewerSound(s, c);
    NewerFits(s, Newer(c), s.served.value, lo, hi);
    AnswerEnd(s, hi, PageEnd(s.history, hi));
  }

  lemma AnswerEnd(s: State, hi: nat, end: nat)
    requires WellFormed(s) && hi <= |s.history| && end == PageEnd(s.history, hi)
    ensures Position(s.history, if end < |s.history| then s.history[end-1].id + 1 else s.nextId) == end
  {
    if end < |s.history| {
      SplitsAtMessage(s.history, end - 1);
    } else {
      assert SplitsAt(s.history, s.nextId, end);
      PositionIs(s.history, s.nextId, end);
    }
  }

  lemma PageForward(s: State, lo: nat, hi: nat) returns (es: seq<Event>)
    requires Resting(s, lo, hi) && MidHistory(s.channel)
    ensures IsRun(s, es) && OnlyPages(es)
    ensures Resting(After(s, es), lo, PageEnd(s.history, hi)) && After(s, es).history == s.history
    ensures MidHistory(After(s, es).channel) <==> PageEnd(s.history, hi) < |s.history|
  {
    NewerPageLoads(s, lo, hi);
    var e := Begins(Newer(s.channel.page.value.newerCursor.value));
    var s1 := Step(s, e);
    es := FirstStep(Step(s1, Serves), Delivers, []);
    es := FirstStep(s1, Serves, es);
    es := FirstStep(s, e, es);
  }

  lemma {:induction false} PagingForward(s: State, lo: nat, hi: nat) returns (es: seq<Event>)
    requires Resting(s, lo, hi)
    ensures IsRun(s, es) && OnlyPages(es)
    ensures Resting(After(s, es), lo, |s.history|) && After(s, es).history == s.history
    ensures !MidHistory(After(s, es).channel)
    decreases |s.history| - hi, MidHistory(s.channel)
  {
    if !MidHistory(s.channel) {
      es := [];
    } else {
      var page := PageForward(s, lo, hi);
      var rest := PagingForward(After(s, page), lo, PageEnd(s.history, hi));
      RunOn(s, page, rest);
      es := page + rest;
    }
  }

  // ----- Both -----

  lemma {:induction false} HonestRun(s: State, es: seq<Event>)
    requires Inv(s) && IsRun(s, es) && NeverRaces(s, es)
    ensures Inv(After(s, es))
    decreases es
  {
    if es != [] {
      StepHonestIff(s, es[0]);
      SoundStep(s, es[0]);
      HonestRun(Step(s, es[0]), es[1..]);
    }
  }

  /** After every run without a race, once nothing is on its way and everything is announced: paging back reaches the
      start of the history in as many pages as its messages need, paging forward reaches its end, and then the list
      shows all of it. */
  lemma PagingShowsEverything(history: seq<Message>, nextId: int, es: seq<Event>)
    requires WellFormed(Start(history, nextId)) && IsRun(Start(history, nextId), es)
    requires NeverRaces(Start(history, nextId), es)
    requires var s := After(Start(history, nextId), es);
             s.channel.page.Some? && s.inFlight == [] && !s.unannounced
    ensures var s := After(Start(history, nextId), es);
            exists back, more ::
              && IsRun(s, back) && OnlyPages(back) && |back| == 2 * PagesFor(StartOf(s))
              && WindowAt(After(s, back), 0, EndOf(s))
              && IsRun(After(s, back), more) && OnlyPages(more)
              && var end := After(After(s, back), more);
                 end.history == s.history && WindowAt(end, 0, |s.history|) && !MidHistory(end.channel)
  {
    var s := After(Start(history, nextId), es);
    StartIsHonest(history, nextId);
    HonestRun(Start(history, nextId), es);
    LoadingEndsWithItsFetch(history, nextId, es);
    WindowPlace(s);
    var back := PagingBack(s, StartOf(s), EndOf(s));
    var more := PagingForward(After(s, back), 0, EndOf(s));
  }
}

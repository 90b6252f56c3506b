/** Which runs keep a channel's list honest, and what is left of a channel whose jump failed. */
module MessageWindowRuns {
  import opened Options
  import opened MessageWindow
  import opened MessageWindowProofs

  // ----- Pages begun in order -----

  /** A page on its way was asked for at the list's present end. */
  ghost predicate Current(ch: Channel, f: Fetch) {
    match f
    case Older(c) =>
      ch.page.Some? && ch.page.value.hasMore && ch.page.value.cursor == Some(c) && ch.page.value.isLoadingMore
    case Newer(c) =>
      ch.page.Some? && ch.page.value.hasMoreNewer && ch.page.value.newerCursor == Some(c)
      && ch.page.value.isLoadingNewer
    case _ => true
  }

  /** Pages are ahead of everything else, current, and at most one each way. */
  ghost predicate PagesFirst(s: State) {
    && (forall i :: 0 <= i < |s.inFlight| ==> Current(s.channel, s.inFlight[i]))
    && (forall i, j :: 0 <= i < j < |s.inFlight| && IsPaging(s.inFlight[j]) ==>
          IsPaging(s.inFlight[i]) && s.inFlight[i].Older? != s.inFlight[j].Older?)
  }

  lemma PageBegins(s: State, f: Fetch)
    requires PagesFirst(s) && Enabled(s, Begins(f)) && Orderly(s, Begins(f))
    ensures PagesFirst(Step(s, Begins(f)))
  {
    var s' := Step(s, Begins(f));
    if IsPaging(f) {
      forall i | 0 <= i < |s.inFlight| ensures IsPaging(s.inFlight[i]) && s.inFlight[i].Older? != f.Older? {
        assert s.inFlight[i] in s.inFlight;
        assert Current(s.channel, s.inFlight[i]);
      }
    }
    forall i | 0 <= i < |s'.inFlight| ensures Current(s'.channel, s'.inFlight[i]) {
      if i < |s.inFlight| { assert Current(s.channel, s.inFlight[i]); }
    }
  }

  /** The first fetch is over, answered or not. */
  lemma NextPagesFirst(s: State, s': State)
    requires PagesFirst(s) && s.inFlight != [] && s'.inFlight == s.inFlight[1..]
    requires s.inFlight[0].Older? ==> forall f: Fetch :: f.Newer? && Current(s.channel, f) ==> Current(s'.channel, f)
    requires s.inFlight[0].Newer? ==> forall f: Fetch :: f.Older? && Current(s.channel, f) ==> Current(s'.channel, f)
    ensures PagesFirst(s')
  {
    forall i | 0 <= i < |s'.inFlight| ensures Current(s'.channel, s'.inFlight[i]) {
      assert s'.inFlight[i] == s.inFlight[i+1];
      assert Current(s.channel, s.inFlight[i+1]);
    }
  }

  lemma SamePagesFirst(s: State, s': State)
    requires PagesFirst(s) && s'.inFlight == s.inFlight && s'.channel.page == s.channel.page
    ensures PagesFirst(s')
  {
    forall i | 0 <= i < |s'.inFlight| ensures Current(s'.channel, s'.inFlight[i]) {
      assert Current(s.channel, s.inFlight[i]);
    }
  }

  lemma OrderlyStep(s: State, e: Event)
    requires PagesFirst(s) && Enabled(s, e) && Orderly(s, e)
    ensures PagesFirst(Step(s, e))
  {
    match e
    case Begins(f) => PageBegins(s, f);
    case Answers => NextPagesFirst(s, Step(s, e));
    case Delivers => NextPagesFirst(s, Step(s, e));
    case Fails => NextPagesFirst(s, Step(s, e));
    case _ => SamePagesFirst(s, Step(s, e));
  }

  lemma OlderIsPlaced(s: State)
    requires Inv(s) && PagesFirst(s) && Enabled(s, Answers) && s.inFlight[0].Older?
    ensures !Race(s, Answers)
  {
    assert Current(s.channel, s.inFlight[0]);
    WindowPlace(s);
    PositionIs(s.history, s.inFlight[0].cursor, StartOf(s));
  }

  lemma NewerIsPlaced(s: State)
    requires Inv(s) && PagesFirst(s) && Enabled(s, Delivers) && s.inFlight[0].Newer?
    ensures Position(s.history, s.served.value.start) == EndOf(s)
    ensures SplitsAt(s.history, s.served.value.start, EndOf(s))
  {
    assert Current(s.channel, s.inFlight[0]);
    WindowPlace(s);
    PositionIs(s.history, s.inFlight[0].cursor + 1, EndOf(s));
  }

  /** A current page that is empty is outdated exactly when something has been announced beyond the list's end. */
  lemma EmptyPageLate(s: State)
    requires Inv(s) && PagesFirst(s) && Enabled(s, Delivers)
    requires s.inFlight[0].Newer? && s.served.value.answer.messages == []
    ensures Outdated(s, s.served.value) <==> EndOf(s) < Told(s)
  {
    var sv := s.served.value;
    NewerIsPlaced(s);
    if EndOf(s) < Told(s) {
      var m := s.history[EndOf(s)];
      assert sv.start <= m.id;
      assert !Contains(sv.answer.messages, m.id);
      assert m.id >= sv.end;
      assert TailMissed(s, sv);
    }
  }

  /** When pages are begun in order, the only races are late answers. */
  lemma RaceIsLate(s: State, e: Event)
    requires Inv(s) && PagesFirst(s) && Enabled(s, e)
    ensures Race(s, e) <==> Late(s, e)
  {
    match e
    case Answers => if s.inFlight[0].Older? { OlderIsPlaced(s); }
    case Delivers =>
      if s.inFlight[0].Newer? {
        NewerIsPlaced(s);
        if s.served.value.answer.messages == [] { EmptyPageLate(s); }
      }
    case _ =>
  }

  lemma {:induction false} OrderlyRun(s: State, es: seq<Event>)
    requires Inv(s) && PagesFirst(s) && IsRun(s, es) && AllOrderly(s, es)
    ensures NeverRaces(s, es) <==> NeverLate(s, es)
    decreases es
  {
    if es != [] {
      RaceIsLate(s, es[0]);
      StepHonestIff(s, es[0]);
      SoundStep(s, es[0]);
      OrderlyStep(s, es[0]);
      if !Race(s, es[0]) {
        OrderlyRun(Step(s, es[0]), es[1..]);
      }
    }
  }

  /** When no page is begun while a jump, a reset, a rollback or an initial load is outstanding, the list is always
      honest unless and only unless an answer arrives outdated, a rollback replaces a list that did not reach equally
      far, or a message is announced that is listed already. */
  lemma OrderlyWindowIsHonestIff(history: seq<Message>, nextId: int, es: seq<Event>)
    requires WellFormed(Start(history, nextId))
    requires IsRun(Start(history, nextId), es) && AllOrderly(Start(history, nextId), es)
    ensures AlwaysHonest(Start(history, nextId), es) <==> NeverLate(Start(history, nextId), es)
  {
    StartIsHonest(history, nextId);
    RunHonestIff(Start(history, nextId), es);
    OrderlyRun(Start(history, nextId), es);
  }

  // ----- Answers that arrive as they were read -----

  /** The answer under way is true, and holds nothing that is still to be announced; nor does the list. */
  ghost predicate UpToDate(s: State) {
    && (s.served.Some? ==> !Outdated(s, s.served.value))
    && Rollback !in s.inFlight
    && (s.unannounced && s.history != [] ==>
          && (s.served.Some? ==> s.history[|s.history|-1].id >= s.served.value.end)
          && !Contains(Listed(s.channel), s.history[|s.history|-1].id))
  }

  lemma ReadIsTrue(s: State, sv: Served, a: nat, b: nat)
    requires WellFormed(s) && a <= b <= |s.history| && sv.answer.messages == s.history[a..b]
    requires sv.answer.hasMoreNewer || sv.end == s.nextId
    ensures !Outdated(s, sv)
  {
    var res := sv.answer.messages;
    assert forall i :: 0 <= i < |res| ==> res[i] == s.history[a + i];
    forall i, j | 0 <= i < |res| && 0 <= j < |s.history| && s.history[j].id == res[i].id
      ensures !TextDiffers(res[i], s.history[j])
    {
      assert j < a + i || j == a + i || j > a + i;
    }
  }

  lemma NewerIsTrue(s: State, c: int)
    requires WellFormed(s)
    ensures var sv := ServedNewer(s.history, s.nextId, c);
            !Outdated(s, sv) && (sv.answer.hasMoreNewer || sv.end == s.nextId)
  {
    var h, q := s.history, Position(s.history, c + 1);
    var e: nat := if |h| - q > PAGE_LIMIT then q + PAGE_LIMIT else |h|;
    ServedNewerIs(h, s.nextId, c, e);
    ReadIsTrue(s, ServedNewer(h, s.nextId, c), q, e);
  }

  lemma JumpIsTrue(s: State, id: int)
    requires WellFormed(s) && Contains(s.history, id)
    ensures var sv := ServedJump(s.history, s.nextId, id);
            !Outdated(s, sv) && (sv.answer.hasMoreNewer || sv.end == s.nextId)
  {
    var h, mid := s.history, Position(s.history, id + 1);
    var lo: nat := if mid > AROUND_LIMIT then mid - AROUND_LIMIT else 0;
    var hi: nat := if |h| - mid > AROUND_LIMIT then mid + AROUND_LIMIT else |h|;
    WindowIsSegment(h, mid, lo, hi);
    ReadIsTrue(s, ServedJump(h, s.nextId, id), lo, hi);
  }

  /** An answer just read is true, and says that it ends at the tail only if it holds everything issued so far. */
  lemma ServedIsTrue(s: State)
    requires Inv(s) && Enabled(s, Serves)
    ensures var s' := Step(s, Serves);
            !Outdated(s', s'.served.value) && (s'.served.value.answer.hasMoreNewer || s'.served.value.end == s'.nextId)
  {
    var f, s' := s.inFlight[0], Step(s, Serves);
    if f.Newer? { NewerIsTrue(s, f.cursor); } else { JumpIsTrue(s, f.id); }
    SameOutdated(s, s', s'.served.value);
  }

  lemma SavedIsNoNews(s: State, m: Message)
    requires Inv(s) && UpToDate(s) && Enabled(s, Saved(m))
    ensures UpToDate(Step(s, Saved(m)))
  {
    var s' := Step(s, Saved(m));
    SavedIds(s, m);
    if s.served.Some? {
      SavedKeepsAnswer(s, m, s.served.value);
    }
    WindowPlace(s);
    ListedIsKnown(s, StartOf(s), EndOf(s), m.id);
  }

  lemma SavedKeepsAnswer(s: State, m: Message, sv: Served)
    requires Inv(s) && Enabled(s, Saved(m)) && s.served == Some(sv) && !Outdated(s, sv)
    ensures !Outdated(Step(s, Saved(m)), sv) && m.id >= sv.end
  {
    var s', res := Step(s, Saved(m)), sv.answer.messages;
    SavedIds(s, m);
    forall i | 0 <= i < |res| ensures Contains(s'.history, res[i].id) {
      assert Contains(s.history, res[i].id);
      var k :| 0 <= k < |s.history| && s.history[k].id == res[i].id;
      assert s'.history[k] == s.history[k];
    }
    forall i, j | 0 <= i < |res| && 0 <= j < |s'.history| && s'.history[j].id == res[i].id
      ensures !TextDiffers(res[i], s'.history[j])
    {
      assert j < |s.history|;
    }
  }

  lemma ArrivedIsListed(s: State, id: int)
    requires Inv(s) && Enabled(s, Delivers) && !Contains(Listed(s.channel), id) && id >= s.served.value.end
    ensures !Contains(Listed(Step(s, Delivers).channel), id)
  {
    var res := s.served.value.answer.messages;
    var list' := Listed(Step(s, Delivers).channel);
    forall i | 0 <= i < |list'| ensures list'[i].id != id {
      assert list'[i] in Listed(s.channel) || list'[i] in res;
    }
  }

  lemma NoRollback(s: State, e: Event)
    requires Rollback !in s.inFlight && Enabled(s, e) && Calm(s, e)
    ensures Rollback !in Step(s, e).inFlight
    ensures e.Answers? ==> !s.inFlight[0].Rollback?
  {
    if e.Answers? { assert s.inFlight[0] in s.inFlight; }
  }

  lemma CalmStep(s: State, e: Event)
    requires Inv(s) && UpToDate(s) && Enabled(s, e) && Calm(s, e)
    ensures !Late(s, e) && UpToDate(Step(s, e))
  {
    NoRollback(s, e);
    match e
    case Saved(m) => SavedIsNoNews(s, m);
    case Serves => ServedIsTrue(s);
    case Begins(f) => SameListCalm(s, Step(s, e));
    case Fails => SameListCalm(s, Step(s, e));
    case Delivers =>
      if s.unannounced { ArrivedIsListed(s, s.history[|s.history|-1].id); }
    case Announced => ToldCalm(Step(s, e));
    case Edit(id, content) => ToldCalm(Step(s, e));
    case Delete(id) => ToldCalm(Step(s, e));
    case Answers => ToldCalm(Step(s, e));
  }

  /** With everything announced and no answer under way nothing can be out of date. */
  lemma ToldCalm(s: State)
    requires !s.unannounced && s.served.None? && Rollback !in s.inFlight
    ensures UpToDate(s)
  {
  }

  lemma SameListCalm(s: State, s': State)
    requires UpToDate(s) && s'.history == s.history && s'.unannounced == s.unannounced && s'.nextId == s.nextId
    requires s'.channel.list == s.channel.list && (s'.served == s.served || s'.served.None?)
    requires Rollback !in s'.inFlight
    ensures UpToDate(s')
  {
    if s'.served.Some? {
      SameOutdated(s, s', s.served.value);
    }
  }

  lemma {:induction false} CalmRun(s: State, es: seq<Event>)
    requires Inv(s) && PagesFirst(s) && UpToDate(s) && IsRun(s, es) && AllOrderly(s, es) && AllCalm(s, es)
    ensures AlwaysHonest(s, es)
    decreases es
  {
    if es != [] {
      CalmStep(s, es[0]);
      RaceIsLate(s, es[0]);
      StepHonestIff(s, es[0]);
      SoundStep(s, es[0]);
      OrderlyStep(s, es[0]);
      CalmRun(Step(s, es[0]), es[1..]);
    }
  }

  /** Orderly runs whose answers arrive before anything else is announced, edited or deleted keep the list honest. */
  lemma CalmWindowIsHonest(history: seq<Message>, nextId: int, es: seq<Event>)
    requires WellFormed(Start(history, nextId)) && IsRun(Start(history, nextId), es)
    requires AllOrderly(Start(history, nextId), es) && AllCalm(Start(history, nextId), es)
    ensures AlwaysHonest(Start(history, nextId), es)
  {
    StartIsHonest(history, nextId);
    CalmRun(Start(history, nextId), es);
  }

  // ----- One announcement too late or too early -----

  /** A message announced between the reading and the arrival of an answer: the list stays honest exactly when the
      answer says that more is to come. */
  lemma MissedMessageIff(s: State, m: Message)
    requires Inv(s) && PagesFirst(s) && UpToDate(s) && !s.unannounced && Enabled(s, Serves) && Enabled(s, Saved(m))
    ensures var s1 := Step(s, Serves);
            Enabled(s1, Saved(m)) && Enabled(Step(s1, Saved(m)), Announced)
    ensures var s1 := Step(s, Serves);
            var s3 := Step(Step(s1, Saved(m)), Announced);
            Enabled(s3, Delivers) && (Window(Step(s3, Delivers)) <==> s1.served.value.answer.hasMoreNewer)
  {
    var s1 := Step(s, Serves);
    var sv := s1.served.value;
    AfterCalm(s, Serves);
    ServedIsTrue(s);
    var s2 := Step(s1, Saved(m));
    AfterCalm(s1, Saved(m));
    SavedKeepsAnswer(s1, m, sv);
    var s3 := Step(s2, Announced);
    StepHonestIff(s2, Announced);
    SoundStep(s2, Announced);
    OrderlyStep(s2, Announced);
    assert s.inFlight[0].Newer? ==> Current(s.channel, s.inFlight[0]);
    AnnouncedMissesIff(s2, sv);
    RaceIsLate(s3, Delivers);
    StepHonestIff(s3, Delivers);
  }

  lemma AfterCalm(s: State, e: Event)
    requires Inv(s) && PagesFirst(s) && UpToDate(s) && Enabled(s, e) && Calm(s, e) && Orderly(s, e)
    ensures Inv(Step(s, e)) && PagesFirst(Step(s, e)) && UpToDate(Step(s, e))
  {
    CalmStep(s, e);
    RaceIsLate(s, e);
    StepHonestIff(s, e);
    SoundStep(s, e);
    OrderlyStep(s, e);
  }

  lemma AnnouncedMissesIff(s: State, sv: Served)
    requires WellFormed(s) && Enabled(s, Announced) && !Outdated(s, sv) && s.history[|s.history|-1].id >= sv.end
    ensures Outdated(Step(s, Announced), sv) <==> !sv.answer.hasMoreNewer
  {
    var s' := Step(s, Announced);
    assert s'.history[|s.history|-1].id >= sv.end;
  }

  /** An answer read between the saving of a message and its announcement, and delivered before that: once the message
      is announced, the list is honest exactly when the answer said that more was to come. */
  lemma DuplicateIff(s: State)
    requires Inv(s) && PagesFirst(s) && s.unannounced && Enabled(s, Serves)
    ensures var s1 := Step(s, Serves);
            Enabled(s1, Delivers) && Enabled(Step(s1, Delivers), Announced)
    ensures var s1 := Step(s, Serves);
            Window(Step(Step(s1, Delivers), Announced)) <==> s1.served.value.answer.hasMoreNewer
  {
    var s1 := Step(s, Serves);
    var sv := s1.served.value;
    assert s.inFlight[0].Newer? ==> Current(s.channel, s.inFlight[0]);
    ServedIsTrue(s);
    StepHonestIff(s, Serves);
    SoundStep(s, Serves);
    OrderlyStep(s, Serves);
    RaceIsLate(s1, Delivers);
    StepHonestIff(s1, Delivers);
    SoundStep(s1, Delivers);
    var s2 := Step(s1, Delivers);
    StepHonestIff(s2, Announced);
    if !sv.answer.hasMoreNewer {
      LastIsBrought(s1);
    }
  }

  lemma LastIsBrought(s: State)
    requires Inv(s) && s.unannounced && Enabled(s, Delivers) && s.served.value.end == s.nextId
    ensures Contains(Listed(Step(s, Delivers).channel), s.history[|s.history|-1].id)
  {
    var sv, last := s.served.value, s.history[|s.history|-1];
    if s.inFlight[0].Jump? { assert sv.start <= sv.answer.messages[0].id; }
    assert sv.start <= last.id < sv.end;
    assert Contains(sv.answer.messages, last.id);
    var k :| 0 <= k < |sv.answer.messages| && sv.answer.messages[k].id == last.id;
    var list' := Listed(Step(s, Delivers).channel);
    assert list'[|list'| - |sv.answer.messages| + k] == sv.answer.messages[k];
  }

  // ----- One edit or deletion before the answer arrives -----

  /** The state when the answer has been read and something else has happened since, which was no race. */
  lemma ArrivesAfter(s: State, e: Event)
    requires Inv(s) && PagesFirst(s) && Enabled(s, Serves)
    requires Enabled(Step(s, Serves), e) && (e.Edit? || e.Delete?)
    ensures var s2 := Step(Step(s, Serves), e);
            Enabled(s2, Delivers) && (Window(Step(s2, Delivers)) <==> !Outdated(s2, s2.served.value))
  {
    var s1 := Step(s, Serves);
    assert s.inFlight[0].Newer? ==> Current(s.channel, s.inFlight[0]);
    StepHonestIff(s, Serves);
    SoundStep(s, Serves);
    OrderlyStep(s, Serves);
    StepHonestIff(s1, e);
    SoundStep(s1, e);
    OrderlyStep(s1, e);
    RaceIsLate(Step(s1, e), Delivers);
    StepHonestIff(Step(s1, e), Delivers);
  }

  /** The answer holds the history's own messages, and ends at the tail only if it holds everything issued so far. */
  ghost predicate JustRead(s: State, sv: Served) {
    && (exists a: nat, b: nat :: a <= b <= |s.history| && sv.answer.messages == s.history[a..b])
    && (sv.answer.hasMoreNewer || sv.end == s.nextId)
  }

  lemma NewerIsJustRead(s: State, c: int)
    requires WellFormed(s)
    ensures JustRead(s, ServedNewer(s.history, s.nextId, c))
  {
    var h, q := s.history, Position(s.history, c + 1);
    var e: nat := if |h| - q > PAGE_LIMIT then q + PAGE_LIMIT else |h|;
    NewerIsTrue(s, c);
    ServedNewerIs(h, s.nextId, c, e);
    assert ServedNewer(h, s.nextId, c).answer.messages == h[q..e];
  }

  lemma JumpIsJustRead(s: State, id: int)
    requires WellFormed(s) && Contains(s.history, id)
    ensures JustRead(s, ServedJump(s.history, s.nextId, id))
  {
    var h, mid := s.history, Position(s.history, id + 1);
    var lo: nat := if mid > AROUND_LIMIT then mid - AROUND_LIMIT else 0;
    var hi: nat := if |h| - mid > AROUND_LIMIT then mid + AROUND_LIMIT else |h|;
    JumpIsTrue(s, id);
    WindowIsSegment(h, mid, lo, hi);
    assert ServedJump(h, s.nextId, id).answer.messages == h[lo..hi];
  }

  lemma SameJustRead(s: State, s': State, sv: Served)
    requires JustRead(s, sv) && s'.history == s.history && s'.nextId == s.nextId
    ensures JustRead(s', sv)
  {
  }

  lemma ServedIsJustRead(s: State)
    requires Inv(s) && Enabled(s, Serves)
    ensures JustRead(Step(s, Serves), Step(s, Serves).served.value)
  {
    var f, s' := s.inFlight[0], Step(s, Serves);
    if f.Newer? { NewerIsJustRead(s, f.cursor); } else { JumpIsJustRead(s, f.id); }
    SameJustRead(s, s', s'.served.value);
  }

  lemma NoTailMissed(s: State, sv: Served)
    requires WellFormed(s) && (sv.answer.hasMoreNewer || sv.end == s.nextId)
    ensures !TailMissed(s, sv)
  {
  }

  lemma EditDeletesNothing(s: State, sv: Served, id: int, content: string, a: nat, b: nat)
    requires a <= b <= |s.history| && sv.answer.messages == s.history[a..b] && Enabled(s, Edit(id, content))
    ensures !SomeDeleted(Step(s, Edit(id, content)), sv)
  {
    var s', res := Step(s, Edit(id, content)), sv.answer.messages;
    PatchKeepsIds(s.history, id, content);
    ContainsItself(s.history);
    forall i | 0 <= i < |res| ensures Contains(s'.history, res[i].id) {
      assert res[i] == s.history[a + i] && Contains(s.history, s.history[a + i].id);
    }
  }

  lemma EditedTextIff(s: State, sv: Served, id: int, content: string, a: nat, b: nat)
    requires WellFormed(s) && a <= b <= |s.history| && sv.answer.messages == s.history[a..b]
    requires Enabled(s, Edit(id, content))
    ensures SomeEdited(Step(s, Edit(id, content)), sv) <==>
        PatchAll(sv.answer.messages, id, content) != sv.answer.messages
  {
    var h', res := PatchAll(s.history, id, content), sv.answer.messages;
    forall i | 0 <= i < |res| ensures res[i] == s.history[a + i] && h'[a + i] == Patch(res[i], id, content) {
    }
    if k :| 0 <= k < |res| && Patch(res[k], id, content) != res[k] {
      assert h'[a + k].id == res[k].id && TextDiffers(res[k], h'[a + k]);
      assert PatchAll(res, id, content)[k] != res[k];
    } else {
      forall i, j | 0 <= i < |res| && 0 <= j < |h'| && h'[j].id == res[i].id ensures !TextDiffers(res[i], h'[j]) {
        assert s.history[j].id == s.history[a + i].id;
        assert j < a + i || j == a + i || j > a + i;
      }
      assert PatchAll(res, id, content) == res;
    }
  }

  lemma EditOutdatesIff(s: State, sv: Served, id: int, content: string)
    requires WellFormed(s) && JustRead(s, sv) && Enabled(s, Edit(id, content))
    ensures Outdated(Step(s, Edit(id, content)), sv) <==>
        PatchAll(sv.answer.messages, id, content) != sv.answer.messages
  {
    var a: nat, b: nat :| a <= b <= |s.history| && sv.answer.messages == s.history[a..b];
    EditWellFormed(s, id, content);
    NoTailMissed(Step(s, Edit(id, content)), sv);
    EditDeletesNothing(s, sv, id, content, a, b);
    EditedTextIff(s, sv, id, content, a, b);
  }

  lemma DeleteOutdatesIff(s: State, sv: Served, id: int)
    requires WellFormed(s) && JustRead(s, sv) && Enabled(s, Delete(id))
    ensures Outdated(Step(s, Delete(id)), sv) <==> Contains(sv.answer.messages, id)
  {
    var a: nat, b: nat :| a <= b <= |s.history| && sv.answer.messages == s.history[a..b];
    DropWellFormed(s, id);
    NoTailMissed(Step(s, Delete(id)), sv);
    DeletedIff(s, sv, id, a, b);
    DeleteEditsNothing(s, sv, id, a, b);
  }

  lemma DeletedIff(s: State, sv: Served, id: int, a: nat, b: nat)
    requires a <= b <= |s.history| && sv.answer.messages == s.history[a..b] && Enabled(s, Delete(id))
    ensures SomeDeleted(Step(s, Delete(id)), sv) <==> Contains(sv.answer.messages, id)
  {
    var h', res := Step(s, Delete(id)).history, sv.answer.messages;
    DroppedIds(s.history, id);
    forall i | 0 <= i < |res| ensures Contains(h', res[i].id) <==> res[i].id != id {
      assert res[i] == s.history[a + i];
      if res[i].id != id { StillThere(s.history, id, res[i]); }
    }
  }

  lemma DeleteEditsNothing(s: State, sv: Served, id: int, a: nat, b: nat)
    requires WellFormed(s) && a <= b <= |s.history| && sv.answer.messages == s.history[a..b] && Enabled(s, Delete(id))
    ensures !SomeEdited(Step(s, Delete(id)), sv)
  {
    var h', res := Step(s, Delete(id)).history, sv.answer.messages;
    forall i, j | 0 <= i < |res| && 0 <= j < |h'| && h'[j].id == res[i].id ensures !TextDiffers(res[i], h'[j]) {
      assert res[i] == s.history[a + i];
      SameText(s, id, a + i, j);
    }
  }

  lemma StillThere(h: seq<Message>, id: int, m: Message)
    requires m in h && m.id != id
    ensures Contains(UnquoteAll(DropId(h, id), id), m.id)
  {
    DropKeepsOthers(h, id);
    var d := DropId(h, id);
    assert m in d;
    var k :| 0 <= k < |d| && d[k] == m;
    assert UnquoteAll(d, id)[k].id == m.id;
  }

  lemma SameText(s: State, id: int, i: nat, j: nat)
    requires WellFormed(s) && i < |s.history|
    requires j < |UnquoteAll(DropId(s.history, id), id)|
    requires UnquoteAll(DropId(s.history, id), id)[j].id == s.history[i].id
    ensures !TextDiffers(s.history[i], UnquoteAll(DropId(s.history, id), id)[j])
  {
    DroppedIsOld(s.history, id, j);
    var k :| 0 <= k < |s.history| && s.history[k] == DropId(s.history, id)[j];
    assert k < i || k == i || k > i;
  }

  /** An edit between the reading and the arrival of an answer: the list stays honest exactly when the edit changes none
      of the answer's messages or quotes. */
  lemma EditedMeanwhileIff(s: State, id: int, content: string)
    requires Inv(s) && PagesFirst(s) && !s.unannounced && Enabled(s, Serves) && Contains(s.history, id)
    ensures var s1 := Step(s, Serves);
            Enabled(s1, Edit(id, content)) && Enabled(Step(s1, Edit(id, content)), Delivers)
    ensures var s1 := Step(s, Serves);
            var messages := s1.served.value.answer.messages;
            Window(Step(Step(s1, Edit(id, content)), Delivers)) <==> PatchAll(messages, id, content) == messages
  {
    ArrivesAfter(s, Edit(id, content));
    ServedIsJustRead(s);
    EditOutdatesIff(Step(s, Serves), Step(s, Serves).served.value, id, content);
  }

  /** A deletion between the reading and the arrival of an answer: exactly when the answer does not hold the message. */
  lemma DeletedMeanwhileIff(s: State, id: int)
    requires Inv(s) && PagesFirst(s) && !s.unannounced && Enabled(s, Serves) && id < s.nextId
    ensures var s1 := Step(s, Serves);
            Enabled(s1, Delete(id)) && Enabled(Step(s1, Delete(id)), Delivers)
    ensures var s1 := Step(s, Serves);
            Window(Step(Step(s1, Delete(id)), Delivers)) <==> !Contains(s1.served.value.answer.messages, id)
  {
    ArrivesAfter(s, Delete(id));
    ServedIsJustRead(s);
    DeleteOutdatesIff(Step(s, Serves), Step(s, Serves).served.value, id);
  }

  // ----- A failed jump -----

  /** Marked as loaded with nothing loaded and nothing on its way. */
  predicate Stranded(s: State) { s.channel.loaded && s.channel.page.None? && s.inFlight == [] }

  /** A channel can still get its history the normal way. */
  ghost predicate Loads(s: State) {
    s.inFlight != [] || exists f :: MayBegin(s.channel, f) && !f.Jump? && !f.Reset? && !f.Rollback?
  }

  /** A jump marks its channel as loaded when it begins, and nothing takes that back. */
  ghost predicate JumpsAreLoaded(s: State) { forall f :: f in s.inFlight && f.Jump? ==> s.channel.loaded }

  lemma {:induction false} JumpsStayLoaded(s: State, es: seq<Event>)
    requires JumpsAreLoaded(s) && IsRun(s, es)
    ensures JumpsAreLoaded(After(s, es))
    decreases es
  {
    if es != [] {
      JumpsStayLoaded(Step(s, es[0]), es[1..]);
    }
  }

  /** When a jump fails, normal loading survives exactly if something else is outstanding, or there is a window from
      which an older or a newer page can be asked for. The channel is stranded exactly if there is neither another
      fetch nor a window. */
  lemma FailedJumpStrandsIff(s: State)
    requires JumpsAreLoaded(s) && s.inFlight != [] && s.inFlight[0].Jump?
    ensures var s' := Step(s, Fails);
            && (Loads(s') <==> |s.inFlight| > 1 || CanLoadOlder(s.channel) || CanLoadNewer(s.channel))
            && (Stranded(s') <==> |s.inFlight| == 1 && s.channel.page.None?)
  {
    var s', ch := Step(s, Fails), s.channel;
    assert s.inFlight[0] in s.inFlight;
    if CanLoadOlder(ch) { assert MayBegin(s'.channel, Older(ch.page.value.cursor.value)); }
    if CanLoadNewer(ch) { assert MayBegin(s'.channel, Newer(ch.page.value.newerCursor.value)); }
  }

  predicate OpensWindow(e: Event) { e.Begins? && (e.fetch.Jump? || e.fetch.Reset? || e.fetch.Rollback?) }

  lemma StrandedStep(s: State, e: Event)
    requires Stranded(s) && Enabled(s, e) && !OpensWindow(e)
    ensures Stranded(Step(s, e))
    ensures forall m :: m in Listed(Step(s, e).channel) ==>
              Contains(Listed(s.channel), m.id) || (e.Announced? && m == s.history[|s.history|-1])
  {
    var list := Listed(s.channel);
    match e
    case Edit(id, content) => PatchKeepsIds(list, id, content);
    case Delete(id) => DropKeepsOthers(list, id);
    case _ =>
  }

  /** A stranded channel stays so in every run without another jump, reset or rollback: no page and no initial load
      ever begins, and of the messages announced before, none is listed that was not. */
  lemma {:induction false} StrandedForGood(s: State, es: seq<Event>, known: set<int>)
    requires Stranded(s) && IsRun(s, es) && (forall e :: e in es ==> !OpensWindow(e))
    requires forall m :: m in Listed(s.channel) ==> m.id in known
    ensures var end := After(s, es);
            && Stranded(end) && (forall f :: MayBegin(end.channel, f) ==> f.Jump? || f.Reset? || f.Rollback?)
            && forall m :: m in Listed(end.channel) ==> m.id in known || AnnouncedIn(s, es, m.id)
    decreases es
  {
    if es != [] {
      assert es[0] in es;
      StrandedStep(s, es[0]);
      var s', now := Step(s, es[0]), known + if es[0].Announced? then {s.history[|s.history|-1].id} else {};
      forall m | m in Listed(s'.channel) ensures m.id in now {
        if Contains(Listed(s.channel), m.id) {
          var k :| 0 <= k < |Listed(s.channel)| && Listed(s.channel)[k].id == m.id;
          assert Listed(s.channel)[k] in Listed(s.channel);
        }
      }
      StrandedForGood(s', es[1..], now);
    }
  }

  /** The message is announced during the run. */
  predicate AnnouncedIn(s: State, es: seq<Event>, id: int)
    requires IsRun(s, es)
    decreases es
  {
    es != [] &&
    ((es[0].Announced? && s.history[|s.history|-1].id == id) || AnnouncedIn(Step(s, es[0]), es[1..], id))
  }

  // ----- Concrete runs -----

  function Numbered(n: nat): seq<Message> { seq(n, i => Message(i + 1, "", None)) }

  lemma NumberedPosition(n: nat, k: nat)
    requires k <= n
    ensures WellFormed(Start(Numbered(n), n + 1)) && Position(Numbered(n), k + 1) == k
  {
    PositionIs(Numbered(n), k + 1, k);
  }

  lemma FirstStep(s: State, e: Event, rest: seq<Event>) returns (es: seq<Event>)
    requires Enabled(s, e) && IsRun(Step(s, e), rest)
    ensures es == [e] + rest && IsRun(s, es) && After(s, es) == After(Step(s, e), rest)
  {
    es := [e] + rest;
    assert es[1..] == rest;
  }

  /** Channel opened, a jump to message 10 asked for, then an older page. */
  function BothAsked(): State {
    var h := Numbered(200);
    State(h, false, 201,
          Channel(Some(h[100..]), true, Some(Pagination(Some(101), true, true, false, None, false, false))),
          [Jump(10), Older(101)], None)
  }

  lemma TailOfNumbered()
    ensures GetMessages(Numbered(200), TAIL_LIMIT, None) == Page(Numbered(200)[100..], Some(101), true)
  {
    assert Numbered(200)[100].id == 101 && Numbered(200)[100..200] == Numbered(200)[100..];
  }

  lemma BothAreAsked(rest: seq<Event>) returns (es: seq<Event>)
    requires IsRun(BothAsked(), rest)
    ensures IsRun(Start(Numbered(200), 201), es) && After(Start(Numbered(200), 201), es) == After(BothAsked(), rest)
  {
    var s0 := Start(Numbered(200), 201);
    var s1 := Step(s0, Begins(Initial));
    TailOfNumbered();
    var s2 := Step(s1, Answers);
    assert s2.inFlight == [];
    assert forall i :: 0 <= i < 100 ==> Listed(s2.channel)[i].id == 101 + i;
    assert !Contains(Listed(s2.channel), 10);
    var s3 := Step(s2, Begins(Jump(10)));
    assert s3.inFlight == [Jump(10)] && [Jump(10)] + [Older(101)] == [Jump(10), Older(101)];
    assert Step(s3, Begins(Older(101))) == BothAsked();
    es := FirstStep(s3, Begins(Older(101)), rest);
    es := FirstStep(s2, Begins(Jump(10)), es);
    es := FirstStep(s1, Answers, es);
    es := FirstStep(s0, Begins(Initial), es);
  }

  lemma JumpWindowIs(n: nat, id: nat, mid: nat, lo: nat, hi: nat)
    requires 0 < id <= n && mid == id && lo == (if mid > AROUND_LIMIT then mid - AROUND_LIMIT else 0)
    requires hi == if n - mid > AROUND_LIMIT then mid + AROUND_LIMIT else n
    ensures Contains(Numbered(n), id)
    ensures ServedJump(Numbered(n), n + 1, id) == JumpAnswer(Numbered(n), n + 1, lo, hi)
  {
    NumberedPosition(n, id);
    assert Numbered(n)[id-1].id == id;
    WindowIsSegment(Numbered(n), mid, lo, hi);
  }

  /** The window around message 10 is there, and the page before message 101 is next. */
  lemma PageComesLast() returns (es: seq<Event>)
    ensures IsRun(BothAsked(), es) && !Window(After(BothAsked(), es))
  {
    var h, s0 := Numbered(200), BothAsked();
    JumpWindowIs(200, 10, 10, 0, 35);
    var s1 := Step(s0, Serves);
    assert s1.served == Some(JumpAnswer(h, 201, 0, 35));
    var s2 := Step(s1, Delivers);
    assert s2.inFlight == [Older(101)] && Listed(s2.channel) == h[0..35];
    MisplacedPage(s2);
    es := FirstStep(s2, Answers, []);
    es := FirstStep(s1, Delivers, es);
    es := FirstStep(s0, Serves, es);
  }

  lemma MisplacedPage(s: State)
    requires s.history == Numbered(200) && s.nextId == 201
    requires !s.unannounced && s.served.None? && s.inFlight == [Older(101)]
    requires s.channel.list == Some(s.history[0..35])
    requires s.channel.page == Some(Pagination(None, false, false, false, Some(35), true, false))
    ensures Enabled(s, Answers) && !Window(Step(s, Answers))
  {
    NumberedPosition(200, 0);
    NumberedPosition(200, 35);
    NumberedPosition(200, 100);
    PositionSplits(s.history, 36);
    ServerShowsItself(s, 0, 35);
    assert WindowAt(s, 0, 35);
    assert Listed(s.channel)[0].id == 1;
    StepHonestIff(s, Answers);
  }

  /** A page begun while a jump is outstanding is answered after it, and spliced onto the window the jump opened. */
  lemma PageDuringJumpBreaksTheWindow()
    ensures var s := Start(Numbered(200), 201);
            WellFormed(s) && exists es :: IsRun(s, es) && !Window(After(s, es))
  {
    NumberedPosition(200, 0);
    var last := PageComesLast();
    var es := BothAreAsked(last);
    assert !Window(After(Start(Numbered(200), 201), es));
  }

  /** A jump to the first of thirty messages opened a window that ends at message 26; the next page is asked for. */
  function NextAsked(): State {
    var h := Numbered(30);
    State(h, false, 31,
          Channel(Some(h[0..26]), true, Some(Pagination(None, false, false, false, Some(26), true, true))),
          [Newer(26)], None)
  }

  lemma NextIsAsked(rest: seq<Event>) returns (es: seq<Event>)
    requires IsRun(NextAsked(), rest)
    ensures IsRun(Start(Numbered(30), 31), es) && After(Start(Numbered(30), 31), es) == After(NextAsked(), rest)
  {
    var s0 := Start(Numbered(30), 31);
    var s1 := Step(s0, Begins(Jump(1)));
    JumpWindowIs(30, 1, 1, 0, 26);
    var s2 := Step(s1, Serves);
    assert Numbered(30)[25].id == 26;
    var s3 := Step(s2, Delivers);
    assert s3.inFlight == [] && [] + [Newer(26)] == [Newer(26)];
    assert Step(s3, Begins(Newer(26))) == NextAsked();
    es := FirstStep(s3, Begins(Newer(26)), rest);
    es := FirstStep(s2, Delivers, es);
    es := FirstStep(s1, Serves, es);
    es := FirstStep(s0, Begins(Jump(1)), es);
  }

  lemma NextIsHonest()
    ensures Inv(NextAsked()) && PagesFirst(NextAsked()) && UpToDate(NextAsked())
  {
    NextWindow();
    NumberedPosition(30, 0);
    ToldCalm(NextAsked());
  }

  lemma NextWindow()
    ensures WindowAt(NextAsked(), 0, 26)
  {
    var s := NextAsked();
    NumberedPosition(30, 26);
    PositionSplits(s.history, 27);
    ServerShowsItself(s, 0, 26);
  }

  lemma LastPage()
    ensures !ServedNewer(Numbered(30), 31, 26).answer.hasMoreNewer
  {
    NumberedPosition(30, 26);
    ServedNewerIs(Numbered(30), 31, 26, 30);
  }

  /** Message 31 is saved and announced after the last page was read and before it arrives. It is not listed, and the
      page says that there is nothing more. */
  lemma LateAnswerLosesTheTail()
    ensures var s := Start(Numbered(30), 31);
            WellFormed(s) && exists es :: IsRun(s, es) && !Window(After(s, es))
  {
    NumberedPosition(30, 0);
    NextIsHonest();
    LastPage();
    var m, s0 := Message(31, "", None), NextAsked();
    MissedMessageIff(s0, m);
    var s1 := Step(s0, Serves);
    var s2 := Step(s1, Saved(m));
    var s3 := Step(s2, Announced);
    var es := FirstStep(s3, Delivers, []);
    es := FirstStep(s2, Announced, es);
    es := FirstStep(s1, Saved(m), es);
    es := FirstStep(s0, Serves, es);
    es := NextIsAsked(es);
    assert !Window(After(Start(Numbered(30), 31), es));
  }

  /** Message 31 is saved, the last page is read and arrives, and then the message is announced: it is listed twice. */
  lemma EarlyAnswerDuplicates()
    ensures var s := Start(Numbered(30), 31);
            WellFormed(s) && exists es :: IsRun(s, es) && !Window(After(s, es))
  {
    var m, s0 := Message(31, "", None), NextAsked();
    NumberedPosition(30, 0);
    NextIsHonest();
    var s1 := Step(s0, Saved(m));
    AfterCalm(s0, Saved(m));
    LastPageWithNews(m);
    DuplicateIff(s1);
    var s2 := Step(s1, Serves);
    var s3 := Step(s2, Delivers);
    var es := FirstStep(s3, Announced, []);
    es := FirstStep(s2, Delivers, es);
    es := FirstStep(s1, Serves, es);
    es := FirstStep(s0, Saved(m), es);
    es := NextIsAsked(es);
    assert !Window(After(Start(Numbered(30), 31), es));
  }

  lemma LastPageWithNews(m: Message)
    requires m.id == 31
    ensures !ServedNewer(Numbered(30) + [m], 32, 26).answer.hasMoreNewer
  {
    var h := Numbered(30) + [m];
    assert SplitsAt(h, 27, 26);
    PositionIs(h, 27, 26);
    ServedNewerIs(h, 32, 26, 31);
  }

  /** A jump is the first thing asked of a channel, and fails. */
  lemma FirstJumpStrands(history: seq<Message>, nextId: int, id: int)
    ensures exists es :: IsRun(Start(history, nextId), es) && Stranded(After(Start(history, nextId), es))
  {
    var s0 := Start(history, nextId);
    var s1 := Step(s0, Begins(Jump(id)));
    var es := FirstStep(s1, Fails, []);
    es := FirstStep(s0, Begins(Jump(id)), es);
    assert Stranded(After(s0, es));
  }

  /** A deletion in a window opened by a jump is rolled back: the list is replaced by the tail, and still flagged as
      having more messages after it, so that live messages are no longer listed. */
  lemma RollbackBreaksTheWindow()
    ensures var s := Start(Numbered(30), 31);
            WellFormed(s) && exists es :: IsRun(s, es) && !Window(After(s, es))
  {
    NumberedPosition(30, 0);
    var last := NextIsRolledBack();
    var es := NextIsAsked(last);
    assert !Window(After(Start(Numbered(30), 31), es));
  }

  lemma NextIsRolledBack() returns (es: seq<Event>)
    ensures IsRun(NextAsked(), es) && !Window(After(NextAsked(), es))
  {
    var s0 := NextAsked();
    NextIsHonest();
    var s1 := Step(s0, Fails);
    StepHonestIff(s0, Fails);
    SoundStep(s0, Fails);
    RolledBackEarly(s1);
    es := FirstStep(Step(s1, Begins(Rollback)), Answers, []);
    es := FirstStep(s1, Begins(Rollback), es);
    es := FirstStep(s0, Fails, es);
  }

  lemma RolledBackEarly(s: State)
    requires Inv(s) && s.history == Numbered(30) && s.channel.list == NextAsked().channel.list && MidHistory(s.channel)
    requires !s.unannounced && s.inFlight == []
    ensures Enabled(Step(s, Begins(Rollback)), Answers) && !Window(Step(Step(s, Begins(Rollback)), Answers))
  {
    var s1 := Step(s, Begins(Rollback));
    StepHonestIff(s, Begins(Rollback));
    SoundStep(s, Begins(Rollback));
    assert s1.inFlight == [Rollback];
    NextEndsEarly(s1);
    StepHonestIff(s1, Answers);
  }

  lemma NextEndsEarly(s: State)
    requires s.history == Numbered(30) && s.channel.list == NextAsked().channel.list
    ensures EndOf(s) == 26
  {
    assert Listed(s.channel)[25].id == 26;
    NumberedPosition(30, 26);
  }
}

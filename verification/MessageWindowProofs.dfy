/** When a channel's loaded messages are an honest piece of the server's history, over every run of events. */
module MessageWindowProofs {
  import opened Options
  import opened MessageWindow

  // ----- Positions -----

  lemma {:induction false} PositionSplits(h: seq<Message>, c: int)
    requires Ascending(h)
    ensures SplitsAt(h, c, Position(h, c))
    decreases |h|
  {
    if h != [] && h[0].id < c {
      assert Ascending(h[1..]);
      PositionSplits(h[1..], c);
      var n := Position(h[1..], c);
      forall i | 0 <= i < |h| ensures i < n + 1 ==> h[i].id < c ensures i >= n + 1 ==> c <= h[i].id {
        if i > 0 { assert h[i] == h[1..][i-1]; }
      }
    }
  }

  lemma SplitIsUnique(h: seq<Message>, c: int, m: nat, n: nat)
    requires SplitsAt(h, c, m) && SplitsAt(h, c, n)
    ensures m == n
  {
    assert m < |h| ==> c <= h[m].id;
    assert n < |h| ==> c <= h[n].id;
  }

  lemma PositionIs(h: seq<Message>, c: int, n: nat)
    requires Ascending(h) && SplitsAt(h, c, n)
    ensures Position(h, c) == n
  {
    PositionSplits(h, c);
    SplitIsUnique(h, c, n, Position(h, c));
  }

  lemma ServerShowsItself(s: State, lo: nat, hi: nat)
    requires lo <= hi <= |s.history|
    ensures ShowsSegment(s, s.history[lo..hi], lo, hi)
  {
  }

  lemma Joined(s: State, a: seq<Message>, b: seq<Message>, lo: nat, mid: nat, hi: nat)
    requires ShowsSegment(s, a, lo, mid) && ShowsSegment(s, b, mid, hi)
    ensures ShowsSegment(s, a + b, lo, hi)
  {
  }

  lemma PositionsInOrder(h: seq<Message>, c: int, d: int)
    requires Ascending(h) && c <= d
    ensures Position(h, c) <= Position(h, d)
  {
    PositionSplits(h, c);
    PositionSplits(h, d);
  }

  /** A message's own id splits the history right before it, the next one right after it. */
  lemma SplitsAtMessage(h: seq<Message>, i: nat)
    requires Ascending(h) && i < |h|
    ensures Position(h, h[i].id) == i && Position(h, h[i].id + 1) == i + 1
  {
    assert SplitsAt(h, h[i].id, i) && SplitsAt(h, h[i].id + 1, i + 1);
    PositionIs(h, h[i].id, i);
    PositionIs(h, h[i].id + 1, i + 1);
  }

  // ----- The window is where the list says -----

  lemma ListedPlace(s: State, lo: nat, hi: nat)
    requires WellFormed(s) && WindowAt(s, lo, hi) && Listed(s.channel) != []
    ensures lo == StartOf(s) && hi == EndOf(s)
  {
    var list := Listed(s.channel);
    assert Shows(s, list[0], s.history[lo]) && Shows(s, list[|list|-1], s.history[hi-1]);
    SplitsAtMessage(s.history, lo);
    SplitsAtMessage(s.history, hi - 1);
  }

  /** An empty list lies between the messages announced and one that is not. */
  lemma EmptyPlace(s: State, lo: nat, hi: nat)
    requires WellFormed(s) && WindowAt(s, lo, hi) && Listed(s.channel) == []
    ensures WindowAt(s, EndOf(s), EndOf(s))
  {
    if MidHistory(s.channel) {
      PositionIs(s.history, s.channel.page.value.newerCursor.value + 1, hi);
    }
  }

  lemma WindowPlace(s: State)
    requires WellFormed(s) && Window(s)
    ensures WindowAt(s, StartOf(s), EndOf(s))
  {
    var lo: nat, hi: nat :| WindowAt(s, lo, hi);
    if Listed(s.channel) != [] { ListedPlace(s, lo, hi); } else { EmptyPlace(s, lo, hi); }
  }

  // ----- Saving and announcing -----

  lemma SavedShows(s: State, s': State, mine: Message, server: Message)
    requires Shows(s, mine, server) && s'.nextId >= s.nextId
    requires forall q :: q < s.nextId && Contains(s'.history, q) ==> Contains(s.history, q)
    ensures Shows(s', mine, server)
  {
  }

  lemma SavedIds(s: State, m: Message)
    requires WellFormed(s) && Enabled(s, Saved(m))
    ensures WellFormed(Step(s, Saved(m)))
    ensures forall q :: q < s.nextId && Contains(s.history + [m], q) ==> Contains(s.history, q)
  {
    var h' := s.history + [m];
    forall q | q < s.nextId && Contains(h', q) ensures Contains(s.history, q) {
      var i :| 0 <= i < |h'| && h'[i].id == q;
      assert i < |s.history|;
    }
  }

  lemma SavedWindow(s: State, m: Message)
    requires WellFormed(s) && Window(s) && Enabled(s, Saved(m))
    ensures Window(Step(s, Saved(m)))
  {
    var s' := Step(s, Saved(m));
    var lo: nat, hi: nat :| WindowAt(s, lo, hi);
    SavedIds(s, m);
    var list := Listed(s.channel);
    forall i | 0 <= i < |list| ensures Shows(s', list[i], s'.history[lo + i]) {
      SavedShows(s, s', list[i], s.history[lo + i]);
    }
    assert WindowAt(s', lo, hi);
  }

  lemma ListedIsKnown(s: State, lo: nat, hi: nat, id: int)
    requires WellFormed(s) && WindowAt(s, lo, hi)
    ensures Contains(Listed(s.channel), id) <==> exists i :: lo <= i < hi && s.history[i].id == id
  {
    var list := Listed(s.channel);
    if Contains(list, id) {
      var k :| 0 <= k < |list| && list[k].id == id;
      assert Shows(s, list[k], s.history[lo + k]);
    }
    if i :| lo <= i < hi && s.history[i].id == id {
      assert Shows(s, list[i - lo], s.history[i]);
    }
  }

  /** A new message is listed at the tail, or left for a later page, exactly when it has not been brought already. */
  lemma AnnouncedIff(s: State)
    requires WellFormed(s) && Window(s) && Enabled(s, Announced)
    ensures Window(Step(s, Announced)) <==> !Duplicates(s)
  {
    WindowPlace(s);
    if Duplicates(s) { DuplicateShows(s); } else { AnnouncedWindow(s); }
  }

  lemma AnnouncedWindow(s: State)
    requires WellFormed(s) && WindowAt(s, StartOf(s), EndOf(s)) && Enabled(s, Announced) && !Duplicates(s)
    ensures Window(Step(s, Announced))
  {
    var s', lo, hi := Step(s, Announced), StartOf(s), EndOf(s);
    assert ShowsSegment(s', Listed(s.channel), lo, hi);
    if MidHistory(s.channel) {
      assert WindowAt(s', lo, hi);
    } else {
      NotListedYet(s, lo, hi);
      Appended(s, s', lo, hi);
    }
  }

  lemma NotListedYet(s: State, lo: nat, hi: nat)
    requires WellFormed(s) && WindowAt(s, lo, hi) && lo == StartOf(s) && hi == EndOf(s)
    requires Enabled(s, Announced) && !MidHistory(s.channel) && !Duplicates(s)
    ensures hi == |s.history| - 1
  {
    ListedIsKnown(s, lo, hi, s.history[|s.history|-1].id);
  }

  lemma Appended(s: State, s': State, lo: nat, hi: nat)
    requires WindowAt(s, lo, hi) && hi == |s.history| - 1 && !MidHistory(s.channel)
    requires s' == s.(unannounced := false, channel := Received(s.channel, s.history[hi]))
    ensures Window(s')
  {
    var list, m := Listed(s.channel), s.history[hi];
    assert Shows(s', m, s'.history[hi]);
    assert ShowsSegment(s', list + [m], lo, hi + 1);
    assert WindowAt(s', lo, hi + 1);
  }

  lemma DuplicateShows(s: State)
    requires WellFormed(s) && WindowAt(s, StartOf(s), EndOf(s)) && Enabled(s, Announced) && Duplicates(s)
    ensures !Window(Step(s, Announced))
  {
    var s', list, m := Step(s, Announced), Listed(s.channel), s.history[|s.history|-1];
    var k :| 0 <= k < |list| && list[k].id == m.id;
    var list' := Listed(s'.channel);
    assert list'[k].id == list'[|list|].id;
    WindowAscends(s');
  }

  lemma WindowAscends(s: State)
    requires WellFormed(s)
    ensures Window(s) ==> Ascending(Listed(s.channel))
  {
    if lo: nat, hi: nat :| WindowAt(s, lo, hi) {
      var list := Listed(s.channel);
      forall i, j | 0 <= i < j < |list| ensures list[i].id < list[j].id {
        assert Shows(s, list[i], s.history[lo + i]) && Shows(s, list[j], s.history[lo + j]);
      }
    }
  }

  // ----- Editing and deleting -----

  lemma PatchKeepsIds(h: seq<Message>, id: int, content: string)
    ensures forall i :: 0 <= i < |h| ==> PatchAll(h, id, content)[i].id == h[i].id
    ensures forall q :: Contains(PatchAll(h, id, content), q) <==> Contains(h, q)
  {
    var r := PatchAll(h, id, content);
    forall q ensures Contains(r, q) <==> Contains(h, q) {
      if Contains(h, q) {
        var i :| 0 <= i < |h| && h[i].id == q;
        assert r[i].id == q;
      }
    }
  }

  lemma EditShows(s: State, s': State, mine: Message, server: Message, id: int, content: string)
    requires Shows(s, mine, server) && Contains(s.history, id) && s'.nextId == s.nextId
    requires forall q :: Contains(s'.history, q) <==> Contains(s.history, q)
    ensures Shows(s', Patch(mine, id, content), Patch(server, id, content))
  {
  }

  lemma EditWellFormed(s: State, id: int, content: string)
    requires WellFormed(s)
    ensures WellFormed(s.(history := PatchAll(s.history, id, content)))
  {
  }

  lemma EditWindow(s: State, id: int, content: string)
    requires WellFormed(s) && Window(s) && Enabled(s, Edit(id, content))
    ensures Window(Step(s, Edit(id, content)))
  {
    var s' := Step(s, Edit(id, content));
    var lo: nat, hi: nat :| WindowAt(s, lo, hi);
    PatchKeepsIds(s.history, id, content);
    assert Listed(s'.channel) == PatchAll(Listed(s.channel), id, content);
    EditSegment(s, s', Listed(s.channel), id, content, lo, hi);
    SameEnds(s, s', lo, hi);
  }

  lemma EditSegment(s: State, s': State, list: seq<Message>, id: int, content: string, lo: nat, hi: nat)
    requires ShowsSegment(s, list, lo, hi) && Contains(s.history, id) && s'.nextId == s.nextId
    requires s'.history == PatchAll(s.history, id, content)
    requires forall q :: Contains(s'.history, q) <==> Contains(s.history, q)
    ensures ShowsSegment(s', PatchAll(list, id, content), lo, hi)
  {
    var list' := PatchAll(list, id, content);
    forall i | 0 <= i < |list'|
      ensures Shows(s', list'[i], s'.history[lo + i])
    {
      EditShows(s, s', list[i], s.history[lo + i], id, content);
    }
  }

  /** Same ids, same ends. */
  lemma SameEnds(s: State, s': State, lo: nat, hi: nat)
    requires WindowAt(s, lo, hi) && |s'.history| == |s.history|
    requires s'.nextId == s.nextId && s'.unannounced == s.unannounced
    requires forall i :: 0 <= i < |s.history| ==> s'.history[i].id == s.history[i].id
    requires s'.channel.page == s.channel.page && s'.channel.list.Some? == s.channel.list.Some?
    requires ShowsSegment(s', Listed(s'.channel), lo, hi)
    ensures WindowAt(s', lo, hi)
  {
  }

  lemma {:induction false} DropAppend(a: seq<Message>, b: seq<Message>, id: int)
    ensures DropId(a + b, id) == DropId(a, id) + DropId(b, id)
    decreases a
  {
    if a == [] {
      assert a + b == b;
    } else {
      assert (a + b)[0] == a[0] && (a + b)[1..] == a[1..] + b;
      DropAppend(a[1..], b, id);
    }
  }

  /** Dropping an id leaves the other messages, in order. */
  lemma {:induction false} DropKeepsOthers(h: seq<Message>, id: int)
    ensures |DropId(h, id)| <= |h|
    ensures forall x :: x in DropId(h, id) <==> x in h && x.id != id
    decreases h
  {
    if h != [] {
      DropKeepsOthers(h[1..], id);
      assert h == [h[0]] + h[1..];
    }
  }

  lemma {:induction false} DropKeepsOrder(h: seq<Message>, id: int)
    requires Ascending(h)
    ensures Ascending(DropId(h, id))
    decreases h
  {
    if h != [] {
      var rest := DropId(h[1..], id);
      DropKeepsOrder(h[1..], id);
      DropKeepsOthers(h[1..], id);
      forall i | 0 <= i < |rest| ensures h[0].id < rest[i].id {
        assert rest[i] in rest;
        assert rest[i] in h[1..];
      }
    }
  }

  /** Dropping the same id from two lists that agree message by message keeps them in agreement. */
  lemma {:induction false} DropKeepsAgreement(s: State, s': State, mine: seq<Message>, server: seq<Message>, id: int)
    requires |mine| == |server| && forall i {:trigger mine[i]} :: 0 <= i < |mine| ==> Shows(s, mine[i], server[i])
    requires s'.nextId == s.nextId && id < s.nextId && !Contains(s'.history, id)
    requires forall i :: 0 <= i < |server| && server[i].quote.Some? ==> server[i].quote.value.id < s.nextId
    requires forall q :: Contains(s'.history, q) ==> Contains(s.history, q)
    ensures |DropId(mine, id)| == |DropId(server, id)|
    ensures forall i {:trigger DropId(mine, id)[i]} :: 0 <= i < |DropId(mine, id)| ==>
              Shows(s', DropId(mine, id)[i], Unquote(DropId(server, id)[i], id))
    decreases mine
  {
    if mine != [] {
      assert Shows(s, mine[0], server[0]);
      assert Shows(s', mine[0], Unquote(server[0], id));
      DropKeepsAgreement(s, s', mine[1..], server[1..], id);
    }
  }

  lemma SplitAfterDrop(h: seq<Message>, h': seq<Message>, id: int, c: int, n: nat)
    requires SplitsAt(h, c, n) && |h'| == |DropId(h, id)|
    requires forall i :: 0 <= i < |h'| ==> h'[i].id == DropId(h, id)[i].id
    ensures SplitsAt(h', c, |DropId(h[..n], id)|)
  {
    var a, b := h[..n], h[n..];
    assert h == a + b;
    DropAppend(a, b, id);
    DropKeepsOthers(a, id);
    DropKeepsOthers(b, id);
    var da, db := DropId(a, id), DropId(b, id);
    forall i | 0 <= i < |h'|
      ensures i < |da| ==> h'[i].id < c
      ensures i >= |da| ==> c <= h'[i].id
    {
      if i < |da| {
        assert da[i] in da;
      } else {
        assert DropId(h, id)[i] == db[i - |da|] && db[i - |da|] in db;
      }
    }
  }

  lemma DroppedIds(h: seq<Message>, id: int)
    ensures var h' := UnquoteAll(DropId(h, id), id);
            && !Contains(h', id)
            && forall q :: Contains(h', q) ==> Contains(h, q)
  {
    var d := DropId(h, id);
    var h' := UnquoteAll(d, id);
    DropKeepsOthers(h, id);
    forall q | Contains(h', q)
      ensures q != id && Contains(h, q)
    {
      var i :| 0 <= i < |h'| && h'[i].id == q;
      assert d[i] in d;
      assert d[i] in h;
    }
  }

  lemma DropWellFormed(s: State, id: int)
    requires WellFormed(s) && !s.unannounced
    ensures WellFormed(s.(history := UnquoteAll(DropId(s.history, id), id)))
  {
    var d := DropId(s.history, id);
    DropKeepsOrder(s.history, id);
    forall i | 0 <= i < |d|
      ensures 0 < d[i].id < s.nextId && (d[i].quote.Some? ==> d[i].quote.value.id < s.nextId)
    {
      DroppedIsOld(s.history, id, i);
    }
  }

  lemma DroppedIsOld(h: seq<Message>, id: int, i: nat)
    requires i < |DropId(h, id)|
    ensures exists k :: 0 <= k < |h| && h[k] == DropId(h, id)[i]
  {
    DropKeepsOthers(h, id);
    assert DropId(h, id)[i] in DropId(h, id);
    assert DropId(h, id)[i] in h;
  }

  lemma DropInParts(h: seq<Message>, lo: nat, hi: nat, id: int)
    requires lo <= hi <= |h|
    ensures DropId(h, id) == DropId(h[..lo], id) + DropId(h[lo..hi], id) + DropId(h[hi..], id)
    ensures DropId(h[..hi], id) == DropId(h[..lo], id) + DropId(h[lo..hi], id)
  {
    assert h[..lo] + h[lo..hi] == h[..hi] && h[..hi] + h[hi..] == h;
    DropAppend(h[..lo], h[lo..hi], id);
    DropAppend(h[..hi], h[hi..], id);
  }

  /** The segment that is left: history[lo..hi] without the deleted message. */
  lemma DropSegment(s: State, s': State, list: seq<Message>, id: int, lo: nat, hi: nat)
    requires WellFormed(s) && id < s.nextId && ShowsSegment(s, list, lo, hi)
    requires s'.history == UnquoteAll(DropId(s.history, id), id) && s'.nextId == s.nextId
    ensures ShowsSegment(s', DropId(list, id), |DropId(s.history[..lo], id)|, |DropId(s.history[..hi], id)|)
    ensures hi == |s.history| ==> |DropId(s.history[..hi], id)| == |s'.history|
  {
    var h := s.history;
    var b := h[lo..hi];
    DropInParts(h, lo, hi, id);
    DroppedIds(h, id);
    SegmentAgrees(s, list, b, lo, hi);
    DropKeepsAgreement(s, s', list, b, id);
    MiddleShows(s', DropId(list, id), DropId(h[..lo], id), DropId(b, id), DropId(h[hi..], id), id);
  }

  lemma MiddleShows(s: State, list: seq<Message>, a: seq<Message>, b: seq<Message>, c: seq<Message>, id: int)
    requires s.history == UnquoteAll(a + b + c, id) && |list| == |b|
    requires forall i {:trigger list[i]} :: 0 <= i < |list| ==> Shows(s, list[i], Unquote(b[i], id))
    ensures ShowsSegment(s, list, |a|, |a + b|)
  {
    forall i | 0 <= i < |list|
      ensures Shows(s, list[i], s.history[|a| + i])
    {
      assert (a + b + c)[|a| + i] == b[i];
    }
  }

  lemma SegmentAgrees(s: State, list: seq<Message>, b: seq<Message>, lo: nat, hi: nat)
    requires WellFormed(s) && ShowsSegment(s, list, lo, hi) && b == s.history[lo..hi]
    ensures |list| == |b| && forall i {:trigger list[i]} :: 0 <= i < |list| ==> Shows(s, list[i], b[i])
    ensures forall i :: 0 <= i < |b| && b[i].quote.Some? ==> b[i].quote.value.id < s.nextId
  {
  }

  lemma DeleteEnds(s: State, s': State, id: int, p: Pagination, lo: nat, hi: nat)
    requires WellFormed(s) && lo <= hi <= |s.history| && TrueEnds(s, p, lo, hi)
    requires s'.history == UnquoteAll(DropId(s.history, id), id) && s'.nextId == s.nextId
    ensures TrueEnds(s', p, |DropId(s.history[..lo], id)|, |DropId(s.history[..hi], id)|)
  {
    if p.hasMore { SplitAfterDrop(s.history, s'.history, id, p.cursor.value, lo); }
    if p.hasMoreNewer { SplitAfterDrop(s.history, s'.history, id, p.newerCursor.value + 1, hi); }
  }

  lemma DeleteWindow(s: State, id: int)
    requires WellFormed(s) && Window(s) && Enabled(s, Delete(id))
    ensures Window(Step(s, Delete(id)))
  {
    var s' := Step(s, Delete(id));
    var lo: nat, hi: nat :| WindowAt(s, lo, hi);
    DropSegment(s, s', Listed(s.channel), id, lo, hi);
    if s.channel.page.Some? {
      DeleteEnds(s, s', id, s.channel.page.value, lo, hi);
    }
    assert Listed(s'.channel) == DropId(Listed(s.channel), id);
    assert WindowAt(s', |DropId(s.history[..lo], id)|, |DropId(s.history[..hi], id)|);
  }

  // ----- Answers the server's loop gives -----

  lemma TailWindow(s: State, ch: Channel)
    requires WellFormed(s)
    requires ch.list == Some(GetMessages(s.history, TAIL_LIMIT, None).messages)
    requires ch.page == Some(TailPagination(GetMessages(s.history, TAIL_LIMIT, None)))
    ensures Window(s.(channel := ch))
  {
    var n := |s.history|;
    var lo: nat := if n > TAIL_LIMIT then n - TAIL_LIMIT else 0;
    var s' := s.(channel := ch);
    assert s.history[lo..n] == Listed(ch);
    ServerShowsItself(s', lo, n);
    assert WindowAt(s', lo, n);
  }

  function WithOlderPage(s: State, c: int): State
    requires s.channel.page.Some?
  {
    s.(channel := OlderLoaded(s.channel, GetMessages(s.history, PAGE_LIMIT, Some(c))))
  }

  lemma OlderWindow(s: State, start: nat, lo: nat, hi: nat, res: Page)
    requires WellFormed(s) && WindowAt(s, lo, hi) && s.channel.page.Some? && start <= lo
    requires start > 0 ==> start < lo
    requires res == Page(s.history[start..lo], if start > 0 then Some(s.history[start].id) else None, start > 0)
    ensures WindowAt(s.(channel := OlderLoaded(s.channel, res)), start, hi)
  {
    var s' := s.(channel := OlderLoaded(s.channel, res));
    ServerShowsItself(s', start, lo);
    Joined(s', s.history[start..lo], Listed(s.channel), start, lo, hi);
  }

  /** A page asked for at the present start joins the list without gap or overlap. */
  lemma OlderFits(s: State, lo: nat, hi: nat, c: int)
    requires WellFormed(s) && WindowAt(s, lo, hi) && s.channel.page.Some? && Position(s.history, c) == lo
    ensures Window(WithOlderPage(s, c))
  {
    var start: nat := if lo > PAGE_LIMIT then lo - PAGE_LIMIT else 0;
    OlderWindow(s, start, lo, hi, GetMessages(s.history, PAGE_LIMIT, Some(c)));
  }

  lemma PageEndsAt(h: seq<Message>, end: nat)
    requires end <= |h|
    ensures var page := PageBefore(h, end, PAGE_LIMIT).messages;
            |page| <= end && (page == [] <==> end == 0) && (page != [] ==> page[|page|-1] == h[end-1])
  {
  }

  /** The list with a page put before it is a window only right after that page. */
  lemma OlderStartsAfterPage(s: State, lo: nat, hi: nat, c: int, lo': nat, hi': nat)
    requires WellFormed(s) && WindowAt(s, lo, hi) && s.channel.page.Some? && !s.unannounced
    requires WindowAt(WithOlderPage(s, c), lo', hi')
    ensures lo' + |GetMessages(s.history, PAGE_LIMIT, Some(c)).messages| == lo
  {
    var s' := WithOlderPage(s, c);
    var page := GetMessages(s.history, PAGE_LIMIT, Some(c)).messages;
    var list, n := Listed(s.channel), |page|;
    assert Listed(s'.channel) == page + list;
    if list != [] {
      assert Shows(s', Listed(s'.channel)[n], s.history[lo' + n]) && Shows(s, list[0], s.history[lo]);
    } else if MidHistory(s.channel) {
      SplitIsUnique(s.history, s.channel.page.value.newerCursor.value + 1, hi, hi');
    }
  }

  lemma FittingPageStartsHere(s: State, lo: nat, hi: nat, c: int)
    requires WellFormed(s) && WindowAt(s, lo, hi) && s.channel.page.Some? && !s.unannounced
    requires Window(WithOlderPage(s, c))
    ensures Position(s.history, c) == lo
  {
    var s', q := WithOlderPage(s, c), Position(s.history, c);
    var page := GetMessages(s.history, PAGE_LIMIT, Some(c)).messages;
    var lo': nat, hi': nat :| WindowAt(s', lo', hi');
    OlderStartsAfterPage(s, lo, hi, c, lo', hi');
    PageEndsAt(s.history, q);
    if page != [] {
      var n := |page|;
      assert page[n-1] == s.history[q-1];
      assert Shows(s', Listed(s'.channel)[n-1], s.history[lo' + (n-1)]);
    }
  }

  /** An older page lands well exactly when it was asked for at the list's present start. */
  lemma OlderPageFitsIff(s: State, c: int)
    requires WellFormed(s) && Window(s) && s.channel.page.Some? && !s.unannounced
    ensures Window(WithOlderPage(s, c)) <==> Position(s.history, c) == StartOf(s)
  {
    WindowPlace(s);
    if Window(WithOlderPage(s, c)) {
      FittingPageStartsHere(s, StartOf(s), EndOf(s), c);
    } else if Position(s.history, c) == StartOf(s) {
      OlderFits(s, StartOf(s), EndOf(s), c);
    }
  }

  lemma SameWindow(s: State, s': State)
    requires s'.history == s.history && s'.unannounced == s.unannounced
    requires s'.nextId == s.nextId && s'.channel == s.channel
    ensures Window(s') <==> Window(s)
  {
    if lo: nat, hi: nat :| WindowAt(s, lo, hi) {
      assert ShowsSegment(s', Listed(s'.channel), lo, hi);
      assert WindowAt(s', lo, hi);
    }
    if lo: nat, hi: nat :| WindowAt(s', lo, hi) {
      assert ShowsSegment(s, Listed(s.channel), lo, hi);
      assert WindowAt(s, lo, hi);
    }
  }

  function WithRollback(s: State): State {
    s.(channel := RolledBack(s.channel, GetMessages(s.history, TAIL_LIMIT, None)))
  }

  lemma RollbackList(s: State)
    ensures Listed(WithRollback(s).channel) == s.history[TailStart(s.history)..|s.history|]
  {
    assert s.history[..|s.history|] == s.history[0..|s.history|];
  }

  lemma RollbackWindow(s: State, lo: nat, hi: nat)
    requires WindowAt(s, lo, hi) && !s.unannounced
    requires s.channel.page.Some? ==> lo == TailStart(s.history) && (MidHistory(s.channel) ==> hi == |s.history|)
    ensures Window(WithRollback(s))
  {
    var s' := WithRollback(s);
    RollbackList(s);
    ServerShowsItself(s', TailStart(s.history), |s.history|);
    assert WindowAt(s', TailStart(s.history), |s.history|);
  }

  /** The reloaded list is a window only where it was read. */
  lemma RollbackPlace(s: State, lo: nat, hi: nat)
    requires WellFormed(s) && WindowAt(WithRollback(s), lo, hi)
    ensures lo == TailStart(s.history) && hi == |s.history|
  {
    var s' := WithRollback(s);
    RollbackList(s);
    if s.history != [] {
      ListedPlace(s', lo, hi);
      SplitsAtMessage(s.history, TailStart(s.history));
    }
  }

  lemma RollbackKeepsPlace(s: State, lo: nat, hi: nat)
    requires WellFormed(s) && WindowAt(s, lo, hi) && s.channel.page.Some? && Window(WithRollback(s))
    ensures lo == TailStart(s.history) && (MidHistory(s.channel) ==> hi == |s.history|)
  {
    var p := s.channel.page.value;
    var lo': nat, hi': nat :| WindowAt(WithRollback(s), lo', hi');
    RollbackPlace(s, lo', hi');
    if p.hasMore { SplitIsUnique(s.history, p.cursor.value, lo, lo'); }
    if p.hasMoreNewer { SplitIsUnique(s.history, p.newerCursor.value + 1, hi, hi'); }
  }

  /** A rollback, which keeps the cursors, leaves the list honest exactly when the list reached back as far as the
      reload does, and to the tail if it was flagged as not reaching it. */
  lemma RollbackIff(s: State)
    requires WellFormed(s) && Window(s) && !s.unannounced
    ensures Window(WithRollback(s)) <==> RollbackFits(s)
  {
    WindowPlace(s);
    if RollbackFits(s) {
      RollbackWindow(s, StartOf(s), EndOf(s));
    } else if Window(WithRollback(s)) {
      RollbackKeepsPlace(s, StartOf(s), EndOf(s));
    }
  }

  lemma AnsweredIff(s: State)
    requires WellFormed(s) && Window(s) && Enabled(s, Answers)
    ensures Window(Step(s, Answers)) <==> !Race(s, Answers)
  {
    var f := s.inFlight[0];
    var ch := Answered(s.history, s.channel, f);
    SameWindow(s.(channel := ch), Step(s, Answers));
    match f
    case Older(c) => OlderPageFitsIff(s, c);
    case Rollback => RollbackIff(s);
    case _ => TailWindow(s, ch);
  }

  // ----- Answers read beside the loop -----

  /** What the server still quotes is what the message quotes, and what it no longer quotes is deleted. */
  ghost predicate QuoteKept(s: State, mine: Message, server: Message) {
    && (server.quote.Some? ==> mine.quote.Some? && mine.quote.value.id == server.quote.value.id)
    && (mine.quote.Some? && server.quote.None? ==>
          mine.quote.value.id < s.nextId && !Contains(s.history, mine.quote.value.id))
  }

  ghost predicate QuotesKept(s: State, messages: seq<Message>) {
    forall i, j :: 0 <= i < |messages| && 0 <= j < |s.history| && s.history[j].id == messages[i].id ==>
      QuoteKept(s, messages[i], s.history[j])
  }

  /** Then a message shows the server's exactly when no text differs. */
  lemma ShownIff(s: State, mine: Message, server: Message)
    requires mine.id == server.id && QuoteKept(s, mine, server)
    ensures Shows(s, mine, server) <==> !TextDiffers(mine, server)
  {
  }

  lemma OwnQuotesKept(s: State, a: nat, b: nat)
    requires WellFormed(s) && a <= b <= |s.history|
    ensures QuotesKept(s, s.history[a..b])
  {
    var messages := s.history[a..b];
    forall i, j | 0 <= i < |messages| && 0 <= j < |s.history| && s.history[j].id == messages[i].id
      ensures QuoteKept(s, messages[i], s.history[j])
    {
      assert messages[i] == s.history[a + i];
      assert j < a + i || j == a + i || j > a + i;
    }
  }

  /** The answer is a piece of some earlier history: all of it that lies between its bounds and is still there. */
  ghost predicate AnswerSound(s: State, f: Fetch, sv: Served) {
    var a := sv.answer;
    && Ascending(a.messages)
    && sv.start <= sv.end <= s.nextId
    && (forall i :: 0 <= i < |a.messages| ==> sv.start <= a.messages[i].id < sv.end)
    && (forall i :: 0 <= i < |s.history| && sv.start <= s.history[i].id < sv.end ==>
        Contains(a.messages, s.history[i].id))
    && QuotesKept(s, a.messages)
    && (a.hasMoreNewer ==> a.messages != [] && a.newerCursor == Some(sv.end - 1) && sv.end < s.nextId)
    && (if f.Newer? then sv.start == f.cursor + 1
        else a.messages != [] && if a.hasMoreOlder then a.olderCursor == Some(sv.start) else sv.start == 0)
  }

  ghost predicate ServedSound(s: State) {
    && (s.served.Some? ==>
          s.inFlight != [] && BesideLoop(s.inFlight[0]) && AnswerSound(s, s.inFlight[0], s.served.value))
    && (forall i :: 0 <= i < |s.inFlight| && s.inFlight[i].Newer? ==> s.inFlight[i].cursor + 1 < s.nextId)
  }

  ghost predicate Inv(s: State) { WellFormed(s) && ServedSound(s) && Window(s) }

  lemma SegmentBetween(h: seq<Message>, a: nat, e: nat, start: int, end: int)
    requires Ascending(h) && a <= e && SplitsAt(h, start, a) && SplitsAt(h, end, e)
    ensures Ascending(h[a..e])
    ensures forall i :: 0 <= i < |h[a..e]| ==> start <= h[a..e][i].id < end
    ensures forall i :: 0 <= i < |h| && start <= h[i].id < end ==> Contains(h[a..e], h[i].id)
  {
    forall i | 0 <= i < |h| && start <= h[i].id < end ensures Contains(h[a..e], h[i].id) {
      assert h[a..e][i - a].id == h[i].id;
    }
  }

  lemma PageAfterIs(h: seq<Message>, start: nat, end: nat)
    requires start <= |h| && end == if |h| - start > PAGE_LIMIT then start + PAGE_LIMIT else |h|
    ensures PageAfter(h, start, PAGE_LIMIT)
         == Page(h[start..end], if end < |h| then Some(h[end-1].id) else None, end < |h|)
  {
    assert h[start..] == h[start..|h|];
  }

  /** A page read from the history, from position q to position e. */
  function NewerAnswer(h: seq<Message>, nextId: int, c: int, q: nat, e: nat): Served
    requires q <= e <= |h| && (e < |h| ==> e > 0)
  {
    Served(Around(h[q..e], None, if e < |h| then Some(h[e-1].id) else None, false, e < |h|),
           c + 1, if e < |h| then h[e-1].id + 1 else nextId)
  }

  lemma NewerAnswerSound(s: State, c: int, q: nat, e: nat)
    requires WellFormed(s) && c + 1 < s.nextId && SplitsAt(s.history, c + 1, q) && q <= e <= |s.history|
    requires e < |s.history| ==> q < e
    ensures AnswerSound(s, Newer(c), NewerAnswer(s.history, s.nextId, c, q, e))
  {
    var h, sv := s.history, NewerAnswer(s.history, s.nextId, c, q, e);
    assert e < |h| ==> h[e-1].id < h[e].id;
    SegmentBetween(h, q, e, sv.start, sv.end);
    OwnQuotesKept(s, q, e);
  }

  lemma ServedNewerIs(h: seq<Message>, nextId: int, c: int, e: nat)
    requires var q := Position(h, c + 1); e == if |h| - q > PAGE_LIMIT then q + PAGE_LIMIT else |h|
    ensures ServedNewer(h, nextId, c) == NewerAnswer(h, nextId, c, Position(h, c + 1), e)
  {
    PageAfterIs(h, Position(h, c + 1), e);
  }

  lemma ServedNewerSound(s: State, c: int)
    requires WellFormed(s) && c + 1 < s.nextId
    ensures AnswerSound(s, Newer(c), ServedNewer(s.history, s.nextId, c))
  {
    var h, q := s.history, Position(s.history, c + 1);
    var e: nat := if |h| - q > PAGE_LIMIT then q + PAGE_LIMIT else |h|;
    PositionSplits(h, c + 1);
    ServedNewerIs(h, s.nextId, c, e);
    NewerAnswerSound(s, c, q, e);
  }

  lemma WindowIsSegment(h: seq<Message>, mid: nat, lo: nat, hi: nat)
    requires mid <= |h| && lo == (if mid > AROUND_LIMIT then mid - AROUND_LIMIT else 0)
    requires hi == if |h| - mid > AROUND_LIMIT then mid + AROUND_LIMIT else |h|
    ensures PageBefore(h, mid, AROUND_LIMIT) == Page(h[lo..mid], if lo > 0 then Some(h[lo].id) else None, lo > 0)
    ensures PageAfter(h, mid, AROUND_LIMIT) == Page(h[mid..hi], if hi < |h| then Some(h[hi-1].id) else None, hi < |h|)
    ensures h[lo..mid] + h[mid..hi] == h[lo..hi]
  {
    assert h[..mid] == h[0..mid] && h[mid..] == h[mid..|h|];
  }

  /** A window read from the history, from position lo to position hi. */
  function JumpAnswer(h: seq<Message>, nextId: int, lo: nat, hi: nat): Served
    requires lo < hi <= |h|
  {
    Served(Around(h[lo..hi], if lo > 0 then Some(h[lo].id) else None, if hi < |h| then Some(h[hi-1].id) else None,
                  lo > 0, hi < |h|),
           if lo > 0 then h[lo].id else 0, if hi < |h| then h[hi-1].id + 1 else nextId)
  }

  lemma JumpAnswerSound(s: State, id: int, lo: nat, hi: nat)
    requires WellFormed(s) && lo < hi <= |s.history|
    ensures AnswerSound(s, Jump(id), JumpAnswer(s.history, s.nextId, lo, hi))
  {
    var h, sv := s.history, JumpAnswer(s.history, s.nextId, lo, hi);
    assert hi < |h| ==> h[hi-1].id < h[hi].id;
    SegmentBetween(h, lo, hi, sv.start, sv.end);
    OwnQuotesKept(s, lo, hi);
  }

  lemma ServedJumpSound(s: State, id: int)
    requires WellFormed(s) && Contains(s.history, id)
    ensures AnswerSound(s, Jump(id), ServedJump(s.history, s.nextId, id))
  {
    var h, mid := s.history, Position(s.history, id + 1);
    var lo: nat := if mid > AROUND_LIMIT then mid - AROUND_LIMIT else 0;
    var hi: nat := if |h| - mid > AROUND_LIMIT then mid + AROUND_LIMIT else |h|;
    var k :| 0 <= k < |h| && h[k].id == id;
    SplitsAtMessage(h, k);
    WindowIsSegment(h, mid, lo, hi);
    assert ServedJump(h, s.nextId, id) == JumpAnswer(h, s.nextId, lo, hi);
    JumpAnswerSound(s, id, lo, hi);
  }

  // ----- What later events do to an answer -----

  /** `now` is what has become of the message `was`. */
  ghost predicate Became(s: State, was: Message, now: Message) {
    && now.id == was.id
    && (now.quote.Some? ==> was.quote.Some? && now.quote.value.id == was.quote.value.id)
    && (was.quote.Some? && now.quote.None? ==>
          was.quote.value.id < s.nextId && !Contains(s.history, was.quote.value.id))
  }

  ghost predicate HasOrigin(s: State, s': State, now: Message) {
    exists k :: 0 <= k < |s.history| && Became(s', s.history[k], now)
  }

  /** The later history holds only what became of earlier messages, and new ones. */
  ghost predicate Descends(s: State, s': State) {
    && s'.nextId >= s.nextId
    && (forall i :: 0 <= i < |s'.history| && s'.history[i].id < s.nextId ==> HasOrigin(s, s', s'.history[i]))
    && (forall q :: q < s.nextId && Contains(s'.history, q) ==> Contains(s.history, q))
  }

  lemma QuoteSurvives(s: State, s': State, mine: Message, was: Message, now: Message)
    requires Descends(s, s') && QuoteKept(s, mine, was) && Became(s', was, now)
    ensures QuoteKept(s', mine, now)
  {
  }

  lemma QuotesSurvive(s: State, s': State, messages: seq<Message>)
    requires QuotesKept(s, messages) && Descends(s, s')
    requires forall i :: 0 <= i < |messages| ==> messages[i].id < s.nextId
    ensures QuotesKept(s', messages)
  {
    forall i, j | 0 <= i < |messages| && 0 <= j < |s'.history| && s'.history[j].id == messages[i].id
      ensures QuoteKept(s', messages[i], s'.history[j])
    {
      assert HasOrigin(s, s', s'.history[j]);
      var k :| 0 <= k < |s.history| && Became(s', s.history[k], s'.history[j]);
      QuoteSurvives(s, s', messages[i], s.history[k], s'.history[j]);
    }
  }

  lemma AnswerSurvives(s: State, s': State, f: Fetch, sv: Served)
    requires AnswerSound(s, f, sv) && Descends(s, s')
    ensures AnswerSound(s', f, sv)
  {
    ContainsItself(s'.history);
    forall i | 0 <= i < |s'.history| && sv.start <= s'.history[i].id < sv.end
      ensures Contains(sv.answer.messages, s'.history[i].id)
    {
      assert Contains(s.history, s'.history[i].id);
      var k :| 0 <= k < |s.history| && s.history[k].id == s'.history[i].id;
      assert Contains(sv.answer.messages, s.history[k].id);
    }
    QuotesSurvive(s, s', sv.answer.messages);
  }

  lemma SameDescends(s: State, s': State)
    requires WellFormed(s) && s'.history == s.history && s'.nextId == s.nextId
    ensures Descends(s, s')
  {
    forall i | 0 <= i < |s.history| ensures HasOrigin(s, s', s'.history[i]) {
      assert Became(s', s.history[i], s'.history[i]);
    }
  }

  lemma SavedDescends(s: State, m: Message)
    requires WellFormed(s) && Enabled(s, Saved(m))
    ensures Descends(s, Step(s, Saved(m)))
  {
    var s' := Step(s, Saved(m));
    SavedIds(s, m);
    forall i | 0 <= i < |s'.history| && s'.history[i].id < s.nextId ensures HasOrigin(s, s', s'.history[i]) {
      assert Became(s', s.history[i], s'.history[i]);
    }
  }

  lemma EditDescends(s: State, id: int, content: string)
    requires WellFormed(s) && Enabled(s, Edit(id, content))
    ensures Descends(s, Step(s, Edit(id, content)))
  {
    var s' := Step(s, Edit(id, content));
    PatchKeepsIds(s.history, id, content);
    forall i | 0 <= i < |s'.history| ensures HasOrigin(s, s', s'.history[i]) {
      assert Became(s', s.history[i], s'.history[i]);
    }
  }

  lemma DeleteDescends(s: State, id: int)
    requires WellFormed(s) && Enabled(s, Delete(id))
    ensures Descends(s, Step(s, Delete(id)))
  {
    var s' := Step(s, Delete(id));
    DroppedIds(s.history, id);
    forall i | 0 <= i < |s'.history| ensures HasOrigin(s, s', s'.history[i]) {
      DroppedIsOld(s.history, id, i);
      var k :| 0 <= k < |s.history| && s.history[k] == DropId(s.history, id)[i];
      assert Became(s', s.history[k], s'.history[i]);
    }
  }

  lemma ContainsItself(h: seq<Message>)
    ensures forall i :: 0 <= i < |h| ==> Contains(h, h[i].id)
  {
  }

  lemma SoundStep(s: State, e: Event)
    requires Inv(s) && Enabled(s, e)
    ensures WellFormed(Step(s, e)) && ServedSound(Step(s, e))
  {
    match e
    case Saved(m) => SavedSound(s, m);
    case Announced => AnnouncedSound(s);
    case Edit(id, content) => EditSound(s, id, content);
    case Delete(id) => DeleteSound(s, id);
    case Begins(f) => BeginSound(s, f);
    case Serves => ServesSound(s);
    case Answers => NextSound(s, Step(s, e));
    case Delivers => NextSound(s, Step(s, e));
    case Fails => NextSound(s, Step(s, e));
  }

  /** The first fetch is over. */
  lemma NextSound(s: State, s': State)
    requires WellFormed(s) && ServedSound(s) && s.inFlight != []
    requires s' == s.(channel := s'.channel, inFlight := s.inFlight[1..], served := s'.served)
    requires s'.served.None?
    ensures WellFormed(s') && ServedSound(s')
  {
  }

  lemma AnnouncedSound(s: State)
    requires Inv(s) && Enabled(s, Announced)
    ensures WellFormed(Step(s, Announced)) && ServedSound(Step(s, Announced))
  {
    SameDescends(s, Step(s, Announced));
    SameServed(s, Step(s, Announced));
  }

  lemma EditSound(s: State, id: int, content: string)
    requires Inv(s) && Enabled(s, Edit(id, content))
    ensures WellFormed(Step(s, Edit(id, content))) && ServedSound(Step(s, Edit(id, content)))
  {
    EditWellFormed(s, id, content);
    EditDescends(s, id, content);
    SameServed(s, Step(s, Edit(id, content)));
  }

  lemma DeleteSound(s: State, id: int)
    requires Inv(s) && Enabled(s, Delete(id))
    ensures WellFormed(Step(s, Delete(id))) && ServedSound(Step(s, Delete(id)))
  {
    DropWellFormed(s, id);
    DeleteDescends(s, id);
    SameServed(s, Step(s, Delete(id)));
  }

  lemma ServesSound(s: State)
    requires Inv(s) && Enabled(s, Serves)
    ensures WellFormed(Step(s, Serves)) && ServedSound(Step(s, Serves))
  {
    var f := s.inFlight[0];
    if f.Newer? {
      ServedNewerSound(s, f.cursor);
      SameAnswer(s, ServedNewer(s.history, s.nextId, f.cursor));
    } else {
      ServedJumpSound(s, f.id);
      SameAnswer(s, ServedJump(s.history, s.nextId, f.id));
    }
  }

  lemma SameAnswer(s: State, sv: Served)
    requires WellFormed(s) && ServedSound(s) && s.inFlight != []
    requires BesideLoop(s.inFlight[0]) && AnswerSound(s, s.inFlight[0], sv)
    ensures WellFormed(s.(served := Some(sv))) && ServedSound(s.(served := Some(sv)))
  {
    SameDescends(s, s.(served := Some(sv)));
    AnswerSurvives(s, s.(served := Some(sv)), s.inFlight[0], sv);
  }

  lemma SameServed(s: State, s': State)
    requires ServedSound(s) && s'.served == s.served && s'.inFlight == s.inFlight && Descends(s, s')
    ensures ServedSound(s')
  {
    if s.served.Some? {
      AnswerSurvives(s, s', s.inFlight[0], s.served.value);
    }
  }

  lemma SavedSound(s: State, m: Message)
    requires Inv(s) && Enabled(s, Saved(m))
    ensures WellFormed(Step(s, Saved(m))) && ServedSound(Step(s, Saved(m)))
  {
    SavedIds(s, m);
    SavedDescends(s, m);
    SameServed(s, Step(s, Saved(m)));
  }

  lemma BeginSound(s: State, f: Fetch)
    requires Inv(s) && Enabled(s, Begins(f))
    ensures WellFormed(Step(s, Begins(f))) && ServedSound(Step(s, Begins(f)))
  {
    if f.Newer? { CursorIsOld(s, f.cursor); }
    QueueSound(s, Step(s, Begins(f)), f);
  }

  lemma CursorIsOld(s: State, c: int)
    requires Window(s) && MayBegin(s.channel, Newer(c))
    ensures c + 1 < s.nextId
  {
    var lo: nat, hi: nat :| WindowAt(s, lo, hi);
  }

  lemma QueueSound(s: State, s': State, f: Fetch)
    requires WellFormed(s) && ServedSound(s) && (f.Newer? ==> f.cursor + 1 < s.nextId)
    requires s' == s.(channel := s'.channel, inFlight := s.inFlight + [f])
    ensures WellFormed(s') && ServedSound(s')
  {
    if s.served.Some? {
      SameDescends(s, s');
      AnswerSurvives(s, s', s.inFlight[0], s.served.value);
    }
  }

  // ----- An answer arrives -----

  lemma {:induction false} SameIds(x: seq<Message>, y: seq<Message>)
    requires Ascending(x) && Ascending(y)
    requires forall i :: 0 <= i < |x| ==> Contains(y, x[i].id)
    requires forall i :: 0 <= i < |y| ==> Contains(x, y[i].id)
    ensures |x| == |y| && forall i :: 0 <= i < |x| ==> x[i].id == y[i].id
    decreases |x|
  {
    if x != [] { NotAlone(x, y); }
    if y != [] { NotAlone(y, x); }
    if x != [] {
      LastIsShared(x, y);
      var x', y' := x[..|x|-1], y[..|y|-1];
      FrontIsContained(x, y, x', y');
      FrontIsContained(y, x, y', x');
      SameIds(x', y');
      forall i | 0 <= i < |x| ensures x[i].id == y[i].id {
        if i < |x| - 1 { assert x[i] == x'[i] && y[i] == y'[i]; }
      }
    }
  }

  lemma NotAlone(x: seq<Message>, y: seq<Message>)
    requires x != [] && forall i :: 0 <= i < |x| ==> Contains(y, x[i].id)
    ensures y != []
  {
    assert Contains(y, x[0].id);
  }

  lemma LastIsShared(x: seq<Message>, y: seq<Message>)
    requires Ascending(x) && Ascending(y) && x != [] && y != []
    requires forall i :: 0 <= i < |x| ==> Contains(y, x[i].id)
    requires forall i :: 0 <= i < |y| ==> Contains(x, y[i].id)
    ensures x[|x|-1].id == y[|y|-1].id
  {
    assert Contains(y, x[|x|-1].id) && Contains(x, y[|y|-1].id);
    var i :| 0 <= i < |y| && y[i].id == x[|x|-1].id;
    var j :| 0 <= j < |x| && x[j].id == y[|y|-1].id;
    assert y[i].id <= y[|y|-1].id && x[j].id <= x[|x|-1].id;
  }

  lemma FrontIsContained(x: seq<Message>, y: seq<Message>, x': seq<Message>, y': seq<Message>)
    requires x != [] && y != [] && x' == x[..|x|-1] && y' == y[..|y|-1]
    requires Ascending(x) && Ascending(y) && x[|x|-1].id == y[|y|-1].id
    requires forall i :: 0 <= i < |x| ==> Contains(y, x[i].id)
    ensures forall i :: 0 <= i < |x'| ==> Contains(y', x'[i].id)
  {
    forall i | 0 <= i < |x'| ensures Contains(y', x'[i].id) {
      assert x'[i] == x[i] && Contains(y, x[i].id);
      var k :| 0 <= k < |y| && y[k].id == x[i].id;
      assert x[i].id < x[|x|-1].id;
      assert k < |y| - 1 && y'[k] == y[k];
    }
  }

  /** What is left of the piece of history the answer was read from. */
  function Rest(s: State, sv: Served): seq<Message>
    requires Position(s.history, sv.start) <= Position(s.history, sv.end)
  {
    s.history[Position(s.history, sv.start)..Position(s.history, sv.end)]
  }

  lemma RestIsBetween(s: State, sv: Served)
    requires WellFormed(s) && sv.start <= sv.end
    ensures Position(s.history, sv.start) <= Position(s.history, sv.end)
    ensures Ascending(Rest(s, sv)) && forall i :: 0 <= i < |Rest(s, sv)| ==> sv.start <= Rest(s, sv)[i].id < sv.end
    ensures forall i :: 0 <= i < |s.history| && sv.start <= s.history[i].id < sv.end ==>
        Contains(Rest(s, sv), s.history[i].id)
  {
    PositionSplits(s.history, sv.start);
    PositionSplits(s.history, sv.end);
    PositionsInOrder(s.history, sv.start, sv.end);
    SegmentBetween(s.history, Position(s.history, sv.start), Position(s.history, sv.end), sv.start, sv.end);
  }

  lemma AnswerIsRest(s: State, f: Fetch, sv: Served)
    requires WellFormed(s) && AnswerSound(s, f, sv) && !SomeDeleted(s, sv)
    ensures Position(s.history, sv.start) <= Position(s.history, sv.end)
    ensures |sv.answer.messages| == |Rest(s, sv)|
    ensures forall i :: 0 <= i < |sv.answer.messages| ==> sv.answer.messages[i].id == Rest(s, sv)[i].id
  {
    RestIsBetween(s, sv);
    RestHoldsAnswer(s, f, sv, Rest(s, sv));
    AnswerHoldsRest(s, f, sv, Rest(s, sv));
    SameIds(sv.answer.messages, Rest(s, sv));
  }

  lemma RestHoldsAnswer(s: State, f: Fetch, sv: Served, rest: seq<Message>)
    requires AnswerSound(s, f, sv) && !SomeDeleted(s, sv)
    requires forall i :: 0 <= i < |s.history| && sv.start <= s.history[i].id < sv.end ==>
        Contains(rest, s.history[i].id)
    ensures forall i :: 0 <= i < |sv.answer.messages| ==> Contains(rest, sv.answer.messages[i].id)
  {
    var res := sv.answer.messages;
    forall i | 0 <= i < |res| ensures Contains(rest, res[i].id) {
      assert Contains(s.history, res[i].id);
      var k :| 0 <= k < |s.history| && s.history[k].id == res[i].id;
      assert Contains(rest, s.history[k].id);
    }
  }

  lemma AnswerHoldsRest(s: State, f: Fetch, sv: Served, rest: seq<Message>)
    requires AnswerSound(s, f, sv) && forall i :: 0 <= i < |rest| ==> sv.start <= rest[i].id < sv.end
    requires Position(s.history, sv.start) <= Position(s.history, sv.end) && rest == Rest(s, sv)
    ensures forall i :: 0 <= i < |rest| ==> Contains(sv.answer.messages, rest[i].id)
  {
    forall i | 0 <= i < |rest| ensures Contains(sv.answer.messages, rest[i].id) {
      assert rest[i] == s.history[Position(s.history, sv.start) + i];
    }
  }

  /** An answer that is not outdated is still that piece of the history, and ends where the history does if it says
      so. */
  lemma AnswerFits(s: State, f: Fetch, sv: Served)
    requires WellFormed(s) && AnswerSound(s, f, sv) && !Outdated(s, sv)
    ensures ShowsSegment(s, sv.answer.messages, Position(s.history, sv.start), Position(s.history, sv.end))
    ensures !sv.answer.hasMoreNewer ==> Position(s.history, sv.end) >= Told(s)
  {
    AnswerIsRest(s, f, sv);
    UneditedShows(s, sv, Rest(s, sv), Position(s.history, sv.start), Position(s.history, sv.end));
    EndReached(s, sv);
  }

  lemma UneditedShows(s: State, sv: Served, rest: seq<Message>, a: nat, b: nat)
    requires a <= b <= |s.history| && rest == s.history[a..b] && |sv.answer.messages| == |rest|
    requires !SomeEdited(s, sv) && QuotesKept(s, sv.answer.messages)
    requires forall i :: 0 <= i < |sv.answer.messages| ==> sv.answer.messages[i].id == rest[i].id
    ensures ShowsSegment(s, sv.answer.messages, a, b)
  {
    var res := sv.answer.messages;
    forall i | 0 <= i < |res| ensures Shows(s, res[i], s.history[a + i]) {
      assert rest[i] == s.history[a + i];
      ShownIff(s, res[i], s.history[a + i]);
    }
  }

  lemma EndReached(s: State, sv: Served)
    requires WellFormed(s)
    ensures !sv.answer.hasMoreNewer && !TailMissed(s, sv) ==> Position(s.history, sv.end) >= Told(s)
  {
    var b := Position(s.history, sv.end);
    PositionSplits(s.history, sv.end);
    if b < Told(s) {
      assert s.history[b].id >= sv.end;
    }
  }

  ghost predicate EndsWith(s: State, res: seq<Message>) {
    |Listed(s.channel)| >= |res| && Listed(s.channel)[|Listed(s.channel)|-|res|..] == res
  }

  /** A window that ends with an answer shows that the answer is not outdated. */
  lemma HonestIsUpToDate(s: State, sv: Served)
    requires WellFormed(s) && sv.answer.messages != [] && EndsWith(s, sv.answer.messages)
    requires forall i :: 0 <= i < |sv.answer.messages| ==> sv.answer.messages[i].id < sv.end
    requires MidHistory(s.channel) ==> sv.answer.hasMoreNewer
    ensures Window(s) ==> !Outdated(s, sv)
  {
    if lo: nat, hi: nat :| WindowAt(s, lo, hi) {
      WindowIsUpToDate(s, sv, lo, hi);
    }
  }

  lemma WindowIsUpToDate(s: State, sv: Served, lo: nat, hi: nat)
    requires WellFormed(s) && sv.answer.messages != [] && EndsWith(s, sv.answer.messages)
    requires forall i :: 0 <= i < |sv.answer.messages| ==> sv.answer.messages[i].id < sv.end
    requires WindowAt(s, lo, hi) && (MidHistory(s.channel) ==> sv.answer.hasMoreNewer)
    ensures !Outdated(s, sv)
  {
    TailIsShown(s, sv.answer.messages, lo, hi);
    ShownIsThere(s, sv, hi);
    ShownIsTail(s, sv, hi);
  }

  lemma TailIsShown(s: State, res: seq<Message>, lo: nat, hi: nat)
    requires WindowAt(s, lo, hi) && EndsWith(s, res)
    ensures |res| <= hi <= |s.history| && ShowsSegment(s, res, hi - |res|, hi)
  {
    var list := Listed(s.channel);
    var at := |list| - |res|;
    forall i | 0 <= i < |res| ensures Shows(s, res[i], s.history[hi - |res| + i]) {
      assert list[at..][i] == list[at + i];
      assert Shows(s, list[at + i], s.history[lo + (at + i)]);
    }
  }

  lemma ShownIsThere(s: State, sv: Served, hi: nat)
    requires WellFormed(s) && |sv.answer.messages| <= hi
    requires ShowsSegment(s, sv.answer.messages, hi - |sv.answer.messages|, hi)
    ensures !SomeDeleted(s, sv) && !SomeEdited(s, sv)
  {
    var res, h, at := sv.answer.messages, s.history, hi - |sv.answer.messages|;
    forall i | 0 <= i < |res| ensures Contains(h, res[i].id) {
      assert Shows(s, res[i], h[at + i]);
    }
    forall i, j | 0 <= i < |res| && 0 <= j < |h| && h[j].id == res[i].id ensures !TextDiffers(res[i], h[j]) {
      assert Shows(s, res[i], h[at + i]);
      assert j < at + i || j == at + i || j > at + i;
    }
  }

  lemma ShownIsTail(s: State, sv: Served, hi: nat)
    requires WellFormed(s) && sv.answer.messages != [] && |sv.answer.messages| <= hi
    requires ShowsSegment(s, sv.answer.messages, hi - |sv.answer.messages|, hi)
    requires forall i :: 0 <= i < |sv.answer.messages| ==> sv.answer.messages[i].id < sv.end
    requires !sv.answer.hasMoreNewer ==> hi >= Told(s)
    ensures !TailMissed(s, sv)
  {
    var res, last := sv.answer.messages, |sv.answer.messages| - 1;
    assert Shows(s, res[last], s.history[hi - |res| + last]);
    assert s.history[hi-1].id < sv.end;
  }

  lemma SameOutdated(s: State, s': State, sv: Served)
    requires s'.history == s.history && s'.nextId == s.nextId && s'.unannounced == s.unannounced
    ensures Outdated(s', sv) <==> Outdated(s, sv)
  {
  }

  lemma JumpWindow(s: State, f: Fetch, sv: Served)
    requires WellFormed(s) && f.Jump? && AnswerSound(s, f, sv) && !Outdated(s, sv)
    ensures Window(s.(channel := WindowOpened(s.channel, sv.answer)))
  {
    var s' := s.(channel := WindowOpened(s.channel, sv.answer));
    var a, b := Position(s.history, sv.start), Position(s.history, sv.end);
    AnswerFits(s, f, sv);
    PositionSplits(s.history, sv.start);
    PositionSplits(s.history, sv.end);
    assert ShowsSegment(s', Listed(s'.channel), a, b);
    JumpEnds(s, f, sv, s'.channel.page.value);
    assert WindowAt(s', a, b);
  }

  lemma JumpEnds(s: State, f: Fetch, sv: Served, p: Pagination)
    requires WellFormed(s) && f.Jump? && AnswerSound(s, f, sv)
    requires p.cursor == sv.answer.olderCursor && p.hasMore == sv.answer.hasMoreOlder
    requires p.newerCursor == sv.answer.newerCursor && p.hasMoreNewer == sv.answer.hasMoreNewer
    ensures TrueEnds(s, p, Position(s.history, sv.start), Position(s.history, sv.end))
  {
    PositionSplits(s.history, sv.start);
    PositionSplits(s.history, sv.end);
    assert sv.start <= sv.answer.messages[0].id < sv.end;
  }

  /** A window around a message is honest on arrival exactly when it is not outdated. */
  lemma JumpArrivesIff(s: State, f: Fetch, sv: Served)
    requires WellFormed(s) && f.Jump? && AnswerSound(s, f, sv)
    ensures Window(s.(channel := WindowOpened(s.channel, sv.answer))) <==> !Outdated(s, sv)
  {
    var s' := s.(channel := WindowOpened(s.channel, sv.answer));
    SameOutdated(s, s', sv);
    if Outdated(s, sv) {
      HonestIsUpToDate(s', sv);
    } else {
      JumpWindow(s, f, sv);
    }
  }

  // ----- A page of newer messages arrives -----

  function WithNewerPage(s: State, a: Around): State
    requires s.channel.page.Some?
  {
    s.(channel := NewerLoaded(s.channel, Page(a.messages, a.newerCursor, a.hasMoreNewer)))
  }

  lemma NewerEnds(s: State, f: Fetch, sv: Served, p: Pagination, lo: nat, hi: nat)
    requires WellFormed(s) && AnswerSound(s, f, sv) && TrueEnds(s, p, lo, hi)
    ensures TrueEnds(s, p.(newerCursor := sv.answer.newerCursor, hasMoreNewer := sv.answer.hasMoreNewer,
                           isLoadingNewer := false),
                     lo, Position(s.history, sv.end))
  {
    PositionSplits(s.history, sv.end);
  }

  lemma NewerFits(s: State, f: Fetch, sv: Served, lo: nat, hi: nat)
    requires WellFormed(s) && WindowAt(s, lo, hi) && s.channel.page.Some? && AnswerSound(s, f, sv)
    requires !Outdated(s, sv) && Position(s.history, sv.start) == hi
    ensures WindowAt(WithNewerPage(s, sv.answer), lo, Position(s.history, sv.end))
  {
    var s', b := WithNewerPage(s, sv.answer), Position(s.history, sv.end);
    AnswerFits(s, f, sv);
    NewerEnds(s, f, sv, s.channel.page.value, lo, hi);
    var list, res := Listed(s.channel), sv.answer.messages;
    SegmentStays(s, s', list, lo, hi);
    SegmentStays(s, s', res, hi, b);
    Joined(s', list, res, lo, hi, b);
    SameTrueEnds(s, s', s'.channel.page.value, lo, b);
  }

  lemma SegmentStays(s: State, s': State, list: seq<Message>, lo: nat, hi: nat)
    requires ShowsSegment(s, list, lo, hi) && s'.history == s.history && s'.nextId == s.nextId
    ensures ShowsSegment(s', list, lo, hi)
  {
  }

  lemma SameTrueEnds(s: State, s': State, p: Pagination, lo: nat, hi: nat)
    requires s'.history == s.history && s'.nextId == s.nextId
    ensures TrueEnds(s', p, lo, hi) == TrueEnds(s, p, lo, hi)
  {
  }

  /** The start of the list is where it was. */
  lemma NewerKeepsStart(s: State, a: Around, lo: nat, hi: nat, lo': nat, hi': nat)
    requires WellFormed(s) && WindowAt(s, lo, hi) && s.channel.page.Some?
    requires WindowAt(WithNewerPage(s, a), lo', hi')
    ensures lo' == lo
  {
    var s', list := WithNewerPage(s, a), Listed(s.channel);
    if list != [] {
      assert Listed(s'.channel)[0] == list[0];
      assert Shows(s', Listed(s'.channel)[0], s.history[lo']) && Shows(s, list[0], s.history[lo]);
    } else if s.channel.page.value.hasMore {
      SplitIsUnique(s.history, s.channel.page.value.cursor.value, lo, lo');
    }
  }

  lemma NewerStartsAtEnd(s: State, f: Fetch, sv: Served, lo: nat, hi: nat)
    requires WellFormed(s) && WindowAt(s, lo, hi) && s.channel.page.Some? && AnswerSound(s, f, sv)
    requires !Outdated(s, sv) && sv.answer.messages != [] && Window(WithNewerPage(s, sv.answer))
    ensures Position(s.history, sv.start) == hi
  {
    var lo': nat, hi': nat :| WindowAt(WithNewerPage(s, sv.answer), lo', hi');
    NewerKeepsStart(s, sv.answer, lo, hi, lo', hi');
    AnswerFits(s, f, sv);
    PageIsShownAt(s, sv.answer, hi - lo, lo', hi');
    SameMessage(s, sv.answer.messages, Position(s.history, sv.start), Position(s.history, sv.end), hi);
  }

  lemma PageIsShownAt(s: State, a: Around, n: nat, lo': nat, hi': nat)
    requires s.channel.page.Some? && n == |Listed(s.channel)| && a.messages != []
    requires WindowAt(WithNewerPage(s, a), lo', hi')
    ensures lo' + n < |s.history| && s.history[lo' + n].id == a.messages[0].id
  {
    var s' := WithNewerPage(s, a);
    assert Listed(s'.channel)[n] == a.messages[0];
    assert Shows(s', Listed(s'.channel)[n], s.history[lo' + n]);
  }

  lemma SameMessage(s: State, res: seq<Message>, a: nat, b: nat, at: nat)
    requires WellFormed(s) && ShowsSegment(s, res, a, b)
    requires res != [] && at < |s.history| && s.history[at].id == res[0].id
    ensures at == a
  {
    assert Shows(s, res[0], s.history[a + 0]);
  }

  lemma EmptyPageIff(s: State, f: Fetch, sv: Served, lo: nat, hi: nat)
    requires WellFormed(s) && WindowAt(s, lo, hi) && s.channel.page.Some?
    requires AnswerSound(s, f, sv) && sv.answer.messages == []
    ensures Window(WithNewerPage(s, sv.answer)) <==> hi >= Told(s)
  {
    var s' := WithNewerPage(s, sv.answer);
    assert Listed(s'.channel) == Listed(s.channel);
    if lo': nat, hi': nat :| WindowAt(s', lo', hi') {
      NewerKeepsStart(s, sv.answer, lo, hi, lo', hi');
    }
    if hi >= Told(s) {
      SegmentStays(s, s', Listed(s.channel), lo, hi);
      assert WindowAt(s', lo, hi);
    }
  }

  lemma OutdatedPageShows(s: State, f: Fetch, sv: Served)
    requires WellFormed(s) && s.channel.page.Some?
    requires AnswerSound(s, f, sv) && sv.answer.messages != [] && Outdated(s, sv)
    ensures !Window(WithNewerPage(s, sv.answer))
  {
    var s' := WithNewerPage(s, sv.answer);
    SameOutdated(s, s', sv);
    assert Listed(s'.channel)[|Listed(s.channel)|..] == sv.answer.messages;
    HonestIsUpToDate(s', sv);
  }

  /** A page of newer messages is honest on arrival exactly when it is not outdated and starts where the list ends; an
      empty page, when nothing announced is missing. */
  lemma NewerArrivesIff(s: State, f: Fetch, sv: Served)
    requires WellFormed(s) && Window(s) && s.channel.page.Some? && AnswerSound(s, f, sv)
    ensures Window(WithNewerPage(s, sv.answer)) <==>
            if sv.answer.messages == [] then EndOf(s) >= Told(s)
            else !Outdated(s, sv) && Position(s.history, sv.start) == EndOf(s)
  {
    var s', lo, hi := WithNewerPage(s, sv.answer), StartOf(s), EndOf(s);
    WindowPlace(s);
    if sv.answer.messages == [] {
      EmptyPageIff(s, f, sv, lo, hi);
    } else if Outdated(s, sv) {
      OutdatedPageShows(s, f, sv);
    } else if Window(s') {
      NewerStartsAtEnd(s, f, sv, lo, hi);
    } else if Position(s.history, sv.start) == hi {
      NewerFits(s, f, sv, lo, hi);
    }
  }

  lemma DeliveredIff(s: State)
    requires Inv(s) && Enabled(s, Delivers)
    ensures Window(Step(s, Delivers)) <==> !Race(s, Delivers)
  {
    var f, sv := s.inFlight[0], s.served.value;
    var ch := Delivered(s.channel, f, sv.answer);
    SameWindow(s.(channel := ch), Step(s, Delivers));
    if f.Jump? { JumpArrivesIff(s, f, sv); } else { NewerArrivesIff(s, f, sv); }
  }

  // ----- Every step, every run -----

  lemma FlagsKeepWindow(s: State, s': State)
    requires Window(s) && s'.history == s.history && s'.unannounced == s.unannounced && s'.nextId == s.nextId
    requires s'.channel.list == s.channel.list
    requires s'.channel.page == s.channel.page ||
             (s.channel.page.Some? && s'.channel.page.Some? && SameCursors(s.channel.page.value, s'.channel.page.value))
    ensures Window(s')
  {
    var lo: nat, hi: nat :| WindowAt(s, lo, hi);
    assert ShowsSegment(s', Listed(s'.channel), lo, hi);
    assert WindowAt(s', lo, hi);
  }

  predicate SameCursors(p: Pagination, q: Pagination) {
    q.cursor == p.cursor && q.hasMore == p.hasMore && q.newerCursor == p.newerCursor && q.hasMoreNewer == p.hasMoreNewer
  }

  /** From an honest state, a step leaves the list honest unless and only unless it is a race. */
  lemma StepHonestIff(s: State, e: Event)
    requires Inv(s) && Enabled(s, e)
    ensures Window(Step(s, e)) <==> !Race(s, e)
  {
    match e
    case Saved(m) => SavedWindow(s, m);
    case Announced => AnnouncedIff(s);
    case Edit(id, content) => EditWindow(s, id, content);
    case Delete(id) => DeleteWindow(s, id);
    case Begins(f) => FlagsKeepWindow(s, Step(s, e));
    case Answers => AnsweredIff(s);
    case Serves => SameWindow(s, Step(s, e));
    case Delivers => DeliveredIff(s);
    case Fails => FlagsKeepWindow(s, Step(s, e));
  }

  lemma {:induction false} RunHonestIff(s: State, es: seq<Event>)
    requires Inv(s) && IsRun(s, es)
    ensures AlwaysHonest(s, es) <==> NeverRaces(s, es)
    decreases es
  {
    if es != [] {
      StepHonestIff(s, es[0]);
      SoundStep(s, es[0]);
      if !Race(s, es[0]) {
        RunHonestIff(Step(s, es[0]), es[1..]);
      }
    }
  }

  lemma StartIsHonest(history: seq<Message>, nextId: int)
    requires WellFormed(Start(history, nextId))
    ensures Inv(Start(history, nextId))
  {
    assert WindowAt(Start(history, nextId), |history|, |history|);
  }

  /** From an untouched channel over any history, whatever is begun, announced, edited, deleted, answered or lost: the
      list is always a gap-free piece of the history with honest ends, unless and only unless some event is a race. */
  lemma WindowIsAlwaysHonestIff(history: seq<Message>, nextId: int, es: seq<Event>)
    requires WellFormed(Start(history, nextId)) && IsRun(Start(history, nextId), es)
    ensures AlwaysHonest(Start(history, nextId), es) <==> NeverRaces(Start(history, nextId), es)
  {
    StartIsHonest(history, nextId);
    RunHonestIff(Start(history, nextId), es);
  }

  /** Once neither end has more, the list shows everything announced, from the first message on. */
  lemma NothingMoreMeansEverything(s: State)
    requires Inv(s) && s.channel.page.Some? && !s.channel.page.value.hasMore && !s.channel.page.value.hasMoreNewer
    ensures EndOf(s) >= Told(s) && ShowsSegment(s, Listed(s.channel), 0, EndOf(s))
  {
    WindowPlace(s);
  }
}

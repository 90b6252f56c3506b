/** What the listed messages say, told by the saves, edits and deletions alone. */
module MessageWindowTexts {
  import opened Options
  import opened MessageWindow
  import opened MessageWindowProofs
  import opened MessageWindowLoading

  function FirstText(h: seq<Message>, id: int): string {
    if h == [] then "" else if h[0].id == id then h[0].content else FirstText(h[1..], id)
  }

  /** The text last given to a message: by its last edit, or else when it was saved. */
  function TextOf(start: seq<Message>, es: seq<Event>, id: int): string {
    if es == [] then FirstText(start, id)
    else match es[|es|-1]
      case Saved(m) => if m.id == id then m.content else TextOf(start, es[..|es|-1], id)
      case Edit(edited, content) => if edited == id then content else TextOf(start, es[..|es|-1], id)
      case _ => TextOf(start, es[..|es|-1], id)
  }

  /** The message has been saved, and not been deleted since. */
  predicate Kept(start: seq<Message>, es: seq<Event>, id: int) {
    if es == [] then Contains(start, id)
    else match es[|es|-1]
      case Saved(m) => m.id == id || Kept(start, es[..|es|-1], id)
      case Delete(deleted) => deleted != id && Kept(start, es[..|es|-1], id)
      case _ => Kept(start, es[..|es|-1], id)
  }

  /** What a message quotes is another one, which is kept, with the text it has. */
  predicate QuotesTruly(m: Message, start: seq<Message>, es: seq<Event>) {
    m.quote.Some? ==>
      var q := m.quote.value;
      q.id != m.id && Kept(start, es, q.id) && q.content == TextOf(start, es, q.id)
  }

  /** The server saves a message with the present text of what it quotes. */
  predicate SavedTruly(start: seq<Message>, es: seq<Event>) {
    if es == [] then forall i :: 0 <= i < |start| ==> QuotesTruly(start[i], start, [])
    else
      var before := es[..|es|-1];
      SavedTruly(start, before)
      && (es[|es|-1].Saved? ==> QuotesTruly(es[|es|-1].m, start, before))
  }

  ghost predicate TellsMessages(start: seq<Message>, es: seq<Event>, s: State) {
    && WellFormed(s)
    && (forall id :: Contains(s.history, id) <==> Kept(start, es, id))
    && (forall i :: 0 <= i < |s.history| ==> s.history[i].content == TextOf(start, es, s.history[i].id))
  }

  ghost predicate TellsQuotes(start: seq<Message>, es: seq<Event>, s: State) {
    forall i :: 0 <= i < |s.history| ==> QuotesTruly(s.history[i], start, es)
  }

  lemma {:induction false} FirstTextAt(h: seq<Message>, i: nat)
    requires Ascending(h) && i < |h|
    ensures FirstText(h, h[i].id) == h[i].content
    decreases h
  {
    if i > 0 {
      assert h[0].id < h[i].id;
      FirstTextAt(h[1..], i - 1);
    }
  }

  lemma {:induction false} AfterLast(s: State, es: seq<Event>)
    requires IsRun(s, es) && es != []
    ensures IsRun(s, es[..|es|-1]) && Enabled(After(s, es[..|es|-1]), es[|es|-1])
    ensures After(s, es) == Step(After(s, es[..|es|-1]), es[|es|-1])
    decreases |es|
  {
    if |es| > 1 {
      AfterLast(Step(s, es[0]), es[1..]);
      assert es[1..][..|es|-2] == es[..|es|-1][1..];
    }
  }

  // ----- One event -----

  lemma SavedTells(start: seq<Message>, es: seq<Event>, s: State, m: Message)
    requires TellsMessages(start, es, s) && Enabled(s, Saved(m))
    ensures TellsMessages(start, es + [Saved(m)], Step(s, Saved(m)))
  {
    assert (es + [Saved(m)])[..|es|] == es;
    var h' := s.history + [m];
    SavedIds(s, m);
    forall id ensures Contains(h', id) <==> m.id == id || Contains(s.history, id) {
      if Contains(s.history, id) {
        var i :| 0 <= i < |s.history| && s.history[i].id == id;
        assert h'[i].id == id;
      }
      assert h'[|s.history|].id == m.id;
    }
  }

  /** An edit gives the message the new text, and every quote of it; nothing else changes. */
  lemma EditIs(ms: seq<Message>, id: int, content: string, i: nat)
    requires i < |ms|
    ensures var m, m' := ms[i], PatchAll(ms, id, content)[i];
            && m'.id == m.id
            && m'.content == (if m.id == id then content else m.content)
            && (m.id != id && m.quote.Some? && m.quote.value.id == id ==> m'.quote == Some(Quote(id, content)))
            && (m.id == id || m.quote.None? || m.quote.value.id != id ==> m'.quote == m.quote)
  {
  }

  lemma EditTells(start: seq<Message>, es: seq<Event>, s: State, id: int, content: string)
    requires TellsMessages(start, es, s) && Enabled(s, Edit(id, content))
    ensures TellsMessages(start, es + [Edit(id, content)], Step(s, Edit(id, content)))
  {
    assert (es + [Edit(id, content)])[..|es|] == es;
    EditWellFormed(s, id, content);
    PatchKeepsIds(s.history, id, content);
    var h' := PatchAll(s.history, id, content);
    forall i | 0 <= i < |h'| ensures h'[i].content == TextOf(start, es + [Edit(id, content)], h'[i].id) {
      EditIs(s.history, id, content, i);
    }
  }

  lemma DropTells(h: seq<Message>, id: int, i: nat) returns (k: nat)
    requires i < |UnquoteAll(DropId(h, id), id)|
    ensures k < |h| && h[k].id != id
    ensures UnquoteAll(DropId(h, id), id)[i] == Unquote(h[k], id)
  {
    DropKeepsOthers(h, id);
    var d := DropId(h, id);
    assert d[i] in d;
    assert d[i] in h;
    k :| 0 <= k < |h| && h[k] == d[i];
  }

  lemma OthersAreKept(h: seq<Message>, id: int, other: int)
    requires Contains(h, other) && other != id
    ensures Contains(UnquoteAll(DropId(h, id), id), other)
  {
    DropKeepsOthers(h, id);
    var k :| 0 <= k < |h| && h[k].id == other;
    var d := DropId(h, id);
    assert h[k] in d;
    var j :| 0 <= j < |d| && d[j] == h[k];
    assert UnquoteAll(d, id)[j].id == other;
  }

  lemma DeleteTells(start: seq<Message>, es: seq<Event>, s: State, id: int)
    requires TellsMessages(start, es, s) && Enabled(s, Delete(id))
    ensures TellsMessages(start, es + [Delete(id)], Step(s, Delete(id)))
  {
    assert (es + [Delete(id)])[..|es|] == es;
    DropWellFormed(s, id);
    DroppedIds(s.history, id);
    var h' := UnquoteAll(DropId(s.history, id), id);
    forall other ensures Contains(h', other) <==> other != id && Contains(s.history, other) {
      if other != id && Contains(s.history, other) { OthersAreKept(s.history, id, other); }
    }
    forall i | 0 <= i < |h'| ensures h'[i].content == TextOf(start, es + [Delete(id)], h'[i].id) {
      var k := DropTells(s.history, id, i);
    }
  }

  lemma StepTells(start: seq<Message>, es: seq<Event>, s: State, e: Event)
    requires TellsMessages(start, es, s) && Enabled(s, e)
    ensures TellsMessages(start, es + [e], Step(s, e))
  {
    match e
    case Saved(m) => SavedTells(start, es, s, m);
    case Edit(id, content) => EditTells(start, es, s, id, content);
    case Delete(id) => DeleteTells(start, es, s, id);
    case _ =>
      assert (es + [e])[..|es|] == es;
      assert Step(s, e).history == s.history;
  }

  lemma StepTellsQuotes(start: seq<Message>, es: seq<Event>, s: State, e: Event)
    requires TellsMessages(start, es, s) && TellsQuotes(start, es, s) && Enabled(s, e)
    requires e.Saved? ==> QuotesTruly(e.m, start, es)
    ensures TellsQuotes(start, es + [e], Step(s, e))
  {
    assert (es + [e])[..|es|] == es;
    var h' := Step(s, e).history;
    forall i | 0 <= i < |h'| ensures QuotesTruly(h'[i], start, es + [e]) {
      match e
      case Saved(m) =>
        assert i < |s.history| ==> QuotesTruly(s.history[i], start, es);
      case Edit(id, content) =>
        assert QuotesTruly(s.history[i], start, es);
        EditIs(s.history, id, content, i);
      case Delete(id) =>
        var k := DropTells(s.history, id, i);
        assert QuotesTruly(s.history[k], start, es);
      case _ =>
        assert QuotesTruly(s.history[i], start, es);
    }
  }

  // ----- Every run -----

  lemma {:induction false} EventsTellMessages(start: seq<Message>, nextId: int, es: seq<Event>)
    requires WellFormed(Start(start, nextId)) && IsRun(Start(start, nextId), es)
    ensures TellsMessages(start, es, After(Start(start, nextId), es))
    decreases |es|
  {
    if es == [] {
      forall i | 0 <= i < |start| ensures start[i].content == FirstText(start, start[i].id) {
        FirstTextAt(start, i);
      }
    } else {
      var before, e := es[..|es|-1], es[|es|-1];
      AfterLast(Start(start, nextId), es);
      EventsTellMessages(start, nextId, before);
      StepTells(start, before, After(Start(start, nextId), before), e);
      assert es == before + [e];
    }
  }

  /** Every message the server holds quotes, if anything, a message that it holds, with its present text. */
  lemma {:induction false} EventsTellQuotes(start: seq<Message>, nextId: int, es: seq<Event>)
    requires WellFormed(Start(start, nextId)) && IsRun(Start(start, nextId), es) && SavedTruly(start, es)
    ensures TellsQuotes(start, es, After(Start(start, nextId), es))
    decreases |es|
  {
    if es != [] {
      var before, e := es[..|es|-1], es[|es|-1];
      AfterLast(Start(start, nextId), es);
      EventsTellMessages(start, nextId, before);
      EventsTellQuotes(start, nextId, before);
      StepTellsQuotes(start, before, After(Start(start, nextId), before), e);
      assert es == before + [e];
    }
  }

  /** After every run without a race, a listed message is one that has been saved and not deleted, and shows the text it
      was last given; what it quotes shows the text last given to that, or is a message that is gone. */
  lemma ListShowsTheLastTexts(start: seq<Message>, nextId: int, es: seq<Event>, i: nat)
    requires WellFormed(Start(start, nextId)) && IsRun(Start(start, nextId), es) && NeverRaces(Start(start, nextId), es)
    requires SavedTruly(start, es) && i < |Listed(After(Start(start, nextId), es).channel)|
    ensures var m := Listed(After(Start(start, nextId), es).channel)[i];
            && Kept(start, es, m.id) && m.content == TextOf(start, es, m.id)
            && (m.quote.Some? && Kept(start, es, m.quote.value.id) ==>
                  m.quote.value.content == TextOf(start, es, m.quote.value.id))
  {
    var s := After(Start(start, nextId), es);
    StartIsHonest(start, nextId);
    HonestRun(Start(start, nextId), es);
    EventsTellMessages(start, nextId, es);
    EventsTellQuotes(start, nextId, es);
    WindowPlace(s);
    var k := StartOf(s) + i;
    assert Shows(s, Listed(s.channel)[i], s.history[k]);
    assert QuotesTruly(s.history[k], start, es);
  }
}

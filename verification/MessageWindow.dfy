/** One channel's loaded messages: pages added at both ends, live messages, edits and deletions, against the server's
    history. */
module MessageWindow {
  import opened Options

  datatype Quote = Quote(id: int, content: string)
  datatype Message = Message(id: int, content: string, quote: Option<Quote>)

  datatype Pagination = Pagination(
    cursor: Option<int>, hasMore: bool, isLoadingMore: bool, error: bool,
    newerCursor: Option<int>, hasMoreNewer: bool, isLoadingNewer: bool)

  /** What the client holds for a channel; `list` and `page` are absent until something is stored. */
  datatype Channel = Channel(list: Option<seq<Message>>, loaded: bool, page: Option<Pagination>)

  const UNTOUCHED := Channel(None, false, None)

  datatype Page = Page(messages: seq<Message>, cursor: Option<int>, hasMore: bool)
  datatype Around = Around(messages: seq<Message>, olderCursor: Option<int>, newerCursor: Option<int>,
                           hasMoreOlder: bool, hasMoreNewer: bool)

  // ----- The client's updates -----

  function Listed(ch: Channel): seq<Message> { if ch.list.Some? then ch.list.value else [] }

  predicate MidHistory(ch: Channel) { ch.page.Some? && ch.page.value.hasMoreNewer }

  function Received(ch: Channel, m: Message): Channel {
    if MidHistory(ch) then ch else ch.(list := Some(Listed(ch) + [m]))
  }

  function Patch(m: Message, id: int, content: string): Message {
    if m.id == id then m.(content := content)
    else if m.quote.Some? && m.quote.value.id == id then m.(quote := Some(Quote(id, content)))
    else m
  }

  function PatchAll(ms: seq<Message>, id: int, content: string): (r: seq<Message>)
    ensures |r| == |ms|
  {
    seq(|ms|, i requires 0 <= i < |ms| => Patch(ms[i], id, content))
  }

  function Edited(ch: Channel, id: int, content: string): Channel {
    if ch.list.None? then ch else ch.(list := Some(PatchAll(ch.list.value, id, content)))
  }

  function DropId(ms: seq<Message>, id: int): seq<Message> {
    if ms == [] then [] else (if ms[0].id == id then [] else [ms[0]]) + DropId(ms[1..], id)
  }

  function Removed(ch: Channel, id: int): Channel {
    if ch.list.None? then ch else ch.(list := Some(DropId(ch.list.value, id)))
  }

  function TailPagination(res: Page): Pagination {
    Pagination(res.cursor, res.hasMore, false, false, None, false, false)
  }

  function InitialLoaded(ch: Channel, res: Page): Channel {
    Channel(Some(res.messages), true, Some(TailPagination(res)))
  }

  function TailReloaded(ch: Channel, res: Page): Channel {
    ch.(list := Some(res.messages), page := Some(TailPagination(res)))
  }

  /** The list is replaced, and the cursors and flags stay as they are. */
  function RolledBack(ch: Channel, res: Page): Channel { ch.(list := Some(res.messages)) }

  function WindowOpened(ch: Channel, res: Around): Channel {
    ch.(list := Some(res.messages),
        page := Some(Pagination(res.olderCursor, res.hasMoreOlder, false, false,
                                res.newerCursor, res.hasMoreNewer, false)))
  }

  predicate CanLoadOlder(ch: Channel) {
    ch.page.Some? && !ch.page.value.isLoadingMore && ch.page.value.hasMore && ch.page.value.cursor.Some?
  }

  function OlderStarted(ch: Channel): Channel
    requires ch.page.Some?
  {
    ch.(page := Some(ch.page.value.(isLoadingMore := true, error := false)))
  }

  function OlderLoaded(ch: Channel, res: Page): Channel
    requires ch.page.Some?
  {
    ch.(list := Some(res.messages + Listed(ch)),
        page := Some(ch.page.value.(cursor := res.cursor, hasMore := res.hasMore,
                                    isLoadingMore := false, error := false)))
  }

  function OlderFailed(ch: Channel): Channel
    requires ch.page.Some?
  {
    ch.(page := Some(ch.page.value.(isLoadingMore := false, error := true)))
  }

  predicate CanLoadNewer(ch: Channel) {
    ch.page.Some? && !ch.page.value.isLoadingNewer && ch.page.value.hasMoreNewer && ch.page.value.newerCursor.Some?
  }

  function NewerStarted(ch: Channel): Channel
    requires ch.page.Some?
  {
    ch.(page := Some(ch.page.value.(isLoadingNewer := true)))
  }

  function NewerLoaded(ch: Channel, res: Page): Channel
    requires ch.page.Some?
  {
    ch.(list := Some(Listed(ch) + res.messages),
        page := Some(ch.page.value.(newerCursor := res.cursor, hasMoreNewer := res.hasMore, isLoadingNewer := false)))
  }

  function NewerFailed(ch: Channel): Channel
    requires ch.page.Some?
  {
    ch.(page := Some(ch.page.value.(isLoadingNewer := false)))
  }

  predicate Contains(ms: seq<Message>, id: int) { exists i :: 0 <= i < |ms| && ms[i].id == id }

  // ----- The server's answers -----

  /** Position of the first message whose id is at least c. */
  function Position(h: seq<Message>, c: int): (n: nat)
    ensures n <= |h|
  {
    if h == [] || h[0].id >= c then 0 else 1 + Position(h[1..], c)
  }

  /** The newest `limit` messages before position `end`. */
  function PageBefore(h: seq<Message>, end: nat, limit: nat): Page
    requires end <= |h| && limit > 0
  {
    if end > limit then Page(h[end-limit..end], Some(h[end-limit].id), true) else Page(h[..end], None, false)
  }

  function GetMessages(h: seq<Message>, limit: nat, cursor: Option<int>): Page
    requires limit > 0
  {
    PageBefore(h, if cursor.Some? then Position(h, cursor.value) else |h|, limit)
  }

  function PageAfter(h: seq<Message>, start: nat, limit: nat): Page
    requires start <= |h| && limit > 0
  {
    if |h| - start > limit then Page(h[start..start+limit], Some(h[start+limit-1].id), true)
    else Page(h[start..], None, false)
  }

  function GetMessagesAfter(h: seq<Message>, limit: nat, cursor: int): Page
    requires limit > 0
  {
    PageAfter(h, Position(h, cursor + 1), limit)
  }

  /** A window around an existing message: up to `limit` messages up to and including it, up to `limit` after it. */
  function GetMessagesAround(h: seq<Message>, limit: nat, id: int): Around
    requires limit > 0
  {
    var mid := Position(h, id + 1);
    var older, newer := PageBefore(h, mid, limit), PageAfter(h, mid, limit);
    Around(older.messages + newer.messages, older.cursor, newer.cursor, older.hasMore, newer.hasMore)
  }

  const TAIL_LIMIT: nat := 100
  const PAGE_LIMIT: nat := 50
  const AROUND_LIMIT: nat := 25

  // ----- Runs -----

  /** A rollback is the reload that follows a deletion nobody has acknowledged. */
  datatype Fetch = Initial | Older(cursor: int) | Newer(cursor: int) | Jump(id: int) | Reset | Rollback

  /** An answer read from the database but not yet delivered. Of the messages there were, it holds those with an id of
      at least `start` and below `end`. A page of newer messages is kept as a window without an older half. */
  datatype Served = Served(answer: Around, start: int, end: int)

  /** `history` is the database. Its last message may be saved and not yet announced to the clients. `nextId` bounds
      every id issued. Fetches are answered one at a time, in the order they were begun. */
  datatype State = State(history: seq<Message>, unannounced: bool, nextId: int, channel: Channel, inFlight: seq<Fetch>,
                         served: Option<Served>)

  datatype Event =
    | Saved(m: Message)
    | Announced
    | Edit(id: int, content: string)
    | Delete(id: int)
    | Begins(fetch: Fetch)
    | Answers  // the server's loop reads and answers the first fetch
    | Serves   // the first fetch is read beside the loop, ...
    | Delivers // ... and its answer arrives later
    | Fails

  function Told(s: State): nat { if s.unannounced && s.history != [] then |s.history| - 1 else |s.history| }

  predicate IsPaging(f: Fetch) { f.Older? || f.Newer? }

  /** Pages of newer messages and windows around a message are read beside the server's loop. */
  predicate BesideLoop(f: Fetch) { f.Newer? || f.Jump? }

  predicate MayBegin(ch: Channel, f: Fetch) {
    match f
    case Initial => !ch.loaded
    case Older(c) => CanLoadOlder(ch) && ch.page.value.cursor == Some(c)
    case Newer(c) => CanLoadNewer(ch) && ch.page.value.newerCursor == Some(c)
    case Jump(id) => !Contains(Listed(ch), id)
    case Reset => true
    case Rollback => true
  }

  predicate Enabled(s: State, e: Event) {
    match e
    case Saved(m) => !s.unannounced && m.id >= s.nextId && (m.quote.Some? ==> m.quote.value.id < s.nextId)
    case Announced => s.unannounced && s.history != []
    case Edit(id, content) => !s.unannounced && Contains(s.history, id)
    case Delete(id) => !s.unannounced && id < s.nextId
    case Begins(f) => MayBegin(s.channel, f)
    case Answers =>
      s.inFlight != [] && !BesideLoop(s.inFlight[0]) && !s.unannounced
          && (s.inFlight[0].Older? ==> s.channel.page.Some?)
    case Serves =>
      s.inFlight != [] && BesideLoop(s.inFlight[0]) && s.served.None?
          && (s.inFlight[0].Jump? ==> Contains(s.history, s.inFlight[0].id))
    case Delivers =>
      s.inFlight != [] && BesideLoop(s.inFlight[0]) && s.served.Some? && (s.inFlight[0].Newer? ==> s.channel.page.Some?)
    case Fails => s.inFlight != [] && (IsPaging(s.inFlight[0]) ==> s.channel.page.Some?)
  }

  function Started(ch: Channel, f: Fetch): Channel
    requires MayBegin(ch, f)
  {
    match f
    case Older(c) => OlderStarted(ch)
    case Newer(c) => NewerStarted(ch)
    case Jump(id) => ch.(loaded := true)
    case _ => ch
  }

  function Answered(h: seq<Message>, ch: Channel, f: Fetch): Channel
    requires !BesideLoop(f) && (f.Older? ==> ch.page.Some?)
  {
    match f
    case Initial => InitialLoaded(ch, GetMessages(h, TAIL_LIMIT, None))
    case Older(c) => OlderLoaded(ch, GetMessages(h, PAGE_LIMIT, Some(c)))
    case Reset => TailReloaded(ch, GetMessages(h, TAIL_LIMIT, None))
    case Rollback => RolledBack(ch, GetMessages(h, TAIL_LIMIT, None))
  }

  function ServedNewer(h: seq<Message>, nextId: int, c: int): Served {
    var page := GetMessagesAfter(h, PAGE_LIMIT, c);
    Served(Around(page.messages, None, page.cursor, false, page.hasMore),
           c + 1, if page.cursor.Some? then page.cursor.value + 1 else nextId)
  }

  function ServedJump(h: seq<Message>, nextId: int, id: int): Served {
    var w := GetMessagesAround(h, AROUND_LIMIT, id);
    Served(w, if w.olderCursor.Some? then w.olderCursor.value else 0,
           if w.newerCursor.Some? then w.newerCursor.value + 1 else nextId)
  }

  function Delivered(ch: Channel, f: Fetch, a: Around): Channel
    requires BesideLoop(f) && (f.Newer? ==> ch.page.Some?)
  {
    match f
    case Newer(c) => NewerLoaded(ch, Page(a.messages, a.newerCursor, a.hasMoreNewer))
    case Jump(id) => WindowOpened(ch, a)
  }

  function Unanswered(ch: Channel, f: Fetch): Channel
    requires IsPaging(f) ==> ch.page.Some?
  {
    match f
    case Older(c) => OlderFailed(ch)
    case Newer(c) => NewerFailed(ch)
    case _ => ch
  }

  /** The server forgets a deleted message, also where it was quoted. */
  function Unquote(m: Message, id: int): Message {
    if m.quote.Some? && m.quote.value.id == id then m.(quote := None) else m
  }

  function UnquoteAll(ms: seq<Message>, id: int): (r: seq<Message>)
    ensures |r| == |ms|
  {
    seq(|ms|, i requires 0 <= i < |ms| => Unquote(ms[i], id))
  }

  function Step(s: State, e: Event): State
    requires Enabled(s, e)
  {
    match e
    case Saved(m) => s.(history := s.history + [m], unannounced := true, nextId := m.id + 1)
    case Announced => s.(unannounced := false, channel := Received(s.channel, s.history[|s.history|-1]))
    case Edit(id, content) => s.(history := PatchAll(s.history, id, content), channel := Edited(s.channel, id, content))
    case Delete(id) => s.(history := UnquoteAll(DropId(s.history, id), id), channel := Removed(s.channel, id))
    case Begins(f) => s.(channel := Started(s.channel, f), inFlight := s.inFlight + [f])
    case Answers => s.(channel := Answered(s.history, s.channel, s.inFlight[0]), inFlight := s.inFlight[1..])
    case Serves =>
      var f := s.inFlight[0];
      s.(served := Some(if f.Newer? then ServedNewer(s.history, s.nextId, f.cursor)
                        else ServedJump(s.history, s.nextId, f.id)))
    case Delivers =>
      s.(channel := Delivered(s.channel, s.inFlight[0], s.served.value.answer),
         inFlight := s.inFlight[1..], served := None)
    case Fails => s.(channel := Unanswered(s.channel, s.inFlight[0]), inFlight := s.inFlight[1..], served := None)
  }

  predicate IsRun(s: State, es: seq<Event>)
    decreases es
  {
    es == [] || (Enabled(s, es[0]) && IsRun(Step(s, es[0]), es[1..]))
  }

  function After(s: State, es: seq<Event>): State
    requires IsRun(s, es)
    decreases es
  {
    if es == [] then s else After(Step(s, es[0]), es[1..])
  }

  function Start(history: seq<Message>, nextId: int): State { State(history, false, nextId, UNTOUCHED, [], None) }

  // ----- What an honest list is -----

  ghost predicate Ascending(h: seq<Message>) {
    forall i, j :: 0 <= i < j < |h| ==> h[i].id < h[j].id
  }

  ghost predicate WellFormed(s: State) {
    && Ascending(s.history)
    && s.nextId > 0
    && (forall i :: 0 <= i < |s.history| ==>
         && 0 < s.history[i].id < s.nextId
         && (s.history[i].quote.Some? ==> s.history[i].quote.value.id < s.nextId))
    && (s.unannounced ==> s.history != [] && s.history[|s.history|-1].id == s.nextId - 1)
  }

  /** A listed message shows the server's id and text; its quote is the server's, or quotes a deleted message. */
  ghost predicate Shows(s: State, mine: Message, server: Message) {
    && mine.id == server.id
    && mine.content == server.content
    && (mine.quote == server.quote ||
        (server.quote.None? && mine.quote.Some? && mine.quote.value.id < s.nextId
         && !Contains(s.history, mine.quote.value.id)))
  }

  ghost predicate ShowsSegment(s: State, list: seq<Message>, lo: nat, hi: nat) {
    && lo <= hi <= |s.history|
    && |list| == hi - lo
    && forall i {:trigger list[i]} :: 0 <= i < |list| ==> Shows(s, list[i], s.history[lo + i])
  }

  /** Everything before position n is below c, everything from n on is not. */
  ghost predicate SplitsAt(h: seq<Message>, c: int, n: nat) {
    && n <= |h|
    && (forall i :: 0 <= i < n ==> h[i].id < c)
    && (forall i :: n <= i < |h| ==> c <= h[i].id)
  }

  /** The flags and cursors say truly what lies beyond each end of history[lo..hi]. */
  ghost predicate TrueEnds(s: State, p: Pagination, lo: nat, hi: nat) {
    && (p.hasMore ==> p.cursor.Some? && p.cursor.value < s.nextId && SplitsAt(s.history, p.cursor.value, lo))
    && (!p.hasMore ==> lo == 0)
    && (p.hasMoreNewer ==>
          p.newerCursor.Some? && p.newerCursor.value + 1 < s.nextId && SplitsAt(s.history, p.newerCursor.value + 1, hi))
  }

  /** The list is history[lo..hi], with honest ends; unless more newer messages are flagged it has every message
      announced. */
  ghost predicate WindowAt(s: State, lo: nat, hi: nat) {
    && ShowsSegment(s, Listed(s.channel), lo, hi)
    && (!MidHistory(s.channel) ==> hi >= Told(s))
    && (s.channel.page.Some? ==> s.channel.list.Some? && TrueEnds(s, s.channel.page.value, lo, hi))
  }

  ghost predicate Window(s: State) { exists lo: nat, hi: nat :: WindowAt(s, lo, hi) }

  // ----- What can go wrong -----

  /** Where the list starts and ends in the history. */
  function EndOf(s: State): nat {
    var list := Listed(s.channel);
    if list != [] then Position(s.history, list[|list|-1].id + 1)
    else if MidHistory(s.channel) && s.channel.page.value.newerCursor.Some? then
      Position(s.history, s.channel.page.value.newerCursor.value + 1)
    else Told(s)
  }

  function StartOf(s: State): nat {
    if Listed(s.channel) != [] then Position(s.history, Listed(s.channel)[0].id) else EndOf(s)
  }

  /** A message saved after the answer was read has been announced, and the answer claims to end at the tail. */
  predicate TailMissed(s: State, sv: Served) {
    !sv.answer.hasMoreNewer && exists i :: 0 <= i < Told(s) && s.history[i].id >= sv.end
  }

  predicate SomeDeleted(s: State, sv: Served) {
    exists i :: 0 <= i < |sv.answer.messages| && !Contains(s.history, sv.answer.messages[i].id)
  }

  /** Another text than the server's, of the message itself or of what it still quotes. */
  predicate TextDiffers(mine: Message, server: Message) {
    mine.content != server.content || (server.quote.Some? && mine.quote != server.quote)
  }

  /** A message of the answer, or what it quotes, has been edited to something else since. */
  predicate SomeEdited(s: State, sv: Served) {
    exists i, j :: 0 <= i < |sv.answer.messages| && 0 <= j < |s.history|
      && s.history[j].id == sv.answer.messages[i].id && TextDiffers(sv.answer.messages[i], s.history[j])
  }

  predicate Outdated(s: State, sv: Served) { TailMissed(s, sv) || SomeDeleted(s, sv) || SomeEdited(s, sv) }

  /** The message being announced is listed already. */
  predicate Duplicates(s: State) {
    s.history != [] && !MidHistory(s.channel) && Contains(Listed(s.channel), s.history[|s.history|-1].id)
  }

  function TailStart(h: seq<Message>): nat { if |h| > TAIL_LIMIT then |h| - TAIL_LIMIT else 0 }

  /** The list reaches back exactly as far as a reload does, and to the tail if more newer messages are flagged. */
  predicate RollbackFits(s: State) {
    s.channel.page.Some? ==>
      StartOf(s) == TailStart(s.history) && (MidHistory(s.channel) ==> EndOf(s) == |s.history|)
  }

  /** A page arrives at another place than the end of the list it is put to, a reload without cursors replaces a list
      that did not reach equally far, an answer arrives that is no longer true, or a message is announced that an
      answer has brought already. */
  predicate Race(s: State, e: Event)
    requires Enabled(s, e)
  {
    match e
    case Announced => Duplicates(s)
    case Answers =>
      (s.inFlight[0].Older? && Position(s.history, s.inFlight[0].cursor) != StartOf(s))
      || (s.inFlight[0].Rollback? && !RollbackFits(s))
    case Delivers =>
      var sv := s.served.value;
      if s.inFlight[0].Jump? then Outdated(s, sv)
      else if sv.answer.messages == [] then EndOf(s) < Told(s)
      else Outdated(s, sv) || Position(s.history, sv.start) != EndOf(s)
    case _ => false
  }

  ghost predicate AlwaysHonest(s: State, es: seq<Event>)
    requires IsRun(s, es)
    decreases es
  {
    Window(s) && (es == [] || AlwaysHonest(Step(s, es[0]), es[1..]))
  }

  predicate NeverRaces(s: State, es: seq<Event>)
    requires IsRun(s, es)
    decreases es
  {
    es == [] || (!Race(s, es[0]) && NeverRaces(Step(s, es[0]), es[1..]))
  }

  // ----- What a caller can do -----

  /** No page is begun while a jump, a reset, a rollback or an initial load is outstanding. */
  predicate Orderly(s: State, e: Event) {
    e.Begins? && IsPaging(e.fetch) ==> forall f :: f in s.inFlight ==> IsPaging(f)
  }

  predicate AllOrderly(s: State, es: seq<Event>)
    requires IsRun(s, es)
    decreases es
  {
    es == [] || (Orderly(s, es[0]) && AllOrderly(Step(s, es[0]), es[1..]))
  }

  /** An answer arrives outdated, a rollback does not fit, or a message is announced that is listed already. */
  predicate Late(s: State, e: Event)
    requires Enabled(s, e)
  {
    match e
    case Announced => Duplicates(s)
    case Delivers => Outdated(s, s.served.value)
    case Answers => s.inFlight[0].Rollback? && !RollbackFits(s)
    case _ => false
  }

  predicate NeverLate(s: State, es: seq<Event>)
    requires IsRun(s, es)
    decreases es
  {
    es == [] || (!Late(s, es[0]) && NeverLate(Step(s, es[0]), es[1..]))
  }

  /** Answers are read between announcements, nothing is announced, edited or deleted before they arrive, and nothing is
      rolled back. */
  predicate Calm(s: State, e: Event) {
    && (e.Serves? ==> !s.unannounced)
    && (e.Begins? ==> !e.fetch.Rollback?)
    && (e.Announced? || e.Edit? || e.Delete? ==> s.served.None?)
  }

  predicate AllCalm(s: State, es: seq<Event>)
    requires IsRun(s, es)
    decreases es
  {
    es == [] || (Calm(s, es[0]) && AllCalm(Step(s, es[0]), es[1..]))
  }

  // ----- The hook's state -----

  class UseMessages {
    var messagesByChannel: map<int, seq<Message>>
    var paginationByChannel: map<int, Pagination>
    var loadedChannels: set<int>

    ghost function View(c: int): Channel
      reads this
    {
      Channel(if c in messagesByChannel then Some(messagesByChannel[c]) else None,
              c in loadedChannels,
              if c in paginationByChannel then Some(paginationByChannel[c]) else None)
    }

    constructor ()
      ensures forall c :: View(c) == UNTOUCHED
    {
      messagesByChannel, paginationByChannel, loadedChannels := map[], map[], {};
    }

    method OnMessage(c: int, incoming: Message)
      modifies this
      ensures View(c) == Received(old(View(c)), incoming)
      ensures forall d :: d != c ==> View(d) == old(View(d))
    {
      if c in paginationByChannel && paginationByChannel[c].hasMoreNewer {
        return;
      }
      var prev := if c in messagesByChannel then messagesByChannel[c] else [];
      messagesByChannel := messagesByChannel[c := prev + [incoming]];
    }

    method OnMessageEdited(c: int, id: int, content: string)
      modifies this
      ensures View(c) == Edited(old(View(c)), id, content)
      ensures forall d :: d != c ==> View(d) == old(View(d))
    {
      if c !in messagesByChannel {
        return;
      }
      var prev := messagesByChannel[c];
      var next := [];
      var changed := false;
      for i := 0 to |prev|
        invariant next == PatchAll(prev, id, content)[..i]
        invariant !changed ==> next == prev[..i]
      {
        var m := prev[i];
        if m.id == id {
          changed := true;
          next := next + [m.(content := content)];
        } else if m.quote.Some? && m.quote.value.id == id {
          changed := true;
          next := next + [m.(quote := Some(Quote(id, content)))];
        } else {
          next := next + [m];
        }
      }
      assert prev[..|prev|] == prev && PatchAll(prev, id, content)[..|prev|] == PatchAll(prev, id, content);
      if changed {
        messagesByChannel := messagesByChannel[c := next];
      }
    }

    method RemoveMessage(c: int, id: int)
      modifies this
      ensures View(c) == Removed(old(View(c)), id)
      ensures forall d :: d != c ==> View(d) == old(View(d))
    {
      if c !in messagesByChannel {
        return;
      }
      messagesByChannel := messagesByChannel[c := DropId(messagesByChannel[c], id)];
    }

    /** A deletion has failed, or nobody has acknowledged it: the reload's answer. */
    method OnRollback(c: int, res: Page)
      modifies this
      ensures View(c) == RolledBack(old(View(c)), res)
      ensures forall d :: d != c ==> View(d) == old(View(d))
    {
      messagesByChannel := messagesByChannel[c := res.messages];
    }

    method OnInitialLoad(c: int, res: Page)
      modifies this
      ensures View(c) == InitialLoaded(old(View(c)), res)
      ensures forall d :: d != c ==> View(d) == old(View(d))
    {
      messagesByChannel := messagesByChannel[c := res.messages];
      paginationByChannel :=
          paginationByChannel[c := Pagination(res.cursor, res.hasMore, false, false, None, false, false)];
      loadedChannels := loadedChannels + {c};
    }

    /** Up to the request: the cursor to ask with, if a page is to be loaded at all. */
    method LoadOlderMessages(c: int) returns (cursor: Option<int>)
      modifies this
      ensures cursor.Some? <==> CanLoadOlder(old(View(c)))
      ensures cursor.Some? ==> old(View(c)).page.value.cursor == cursor && View(c) == OlderStarted(old(View(c)))
      ensures cursor.None? ==> View(c) == old(View(c))
      ensures forall d :: d != c ==> View(d) == old(View(d))
    {
      if c !in paginationByChannel || paginationByChannel[c].isLoadingMore || !paginationByChannel[c].hasMore {
        return None;
      }
      cursor := paginationByChannel[c].cursor;
      if cursor.Some? {
        paginationByChannel := paginationByChannel[c := paginationByChannel[c].(isLoadingMore := true, error := false)];
      }
    }

    method OnOlderMessages(c: int, res: Option<Page>)
      requires c in paginationByChannel
      modifies this
      ensures View(c) == if res.Some? then OlderLoaded(old(View(c)), res.value) else OlderFailed(old(View(c)))
      ensures forall d :: d != c ==> View(d) == old(View(d))
    {
      if res.None? {
        paginationByChannel := paginationByChannel[c := paginationByChannel[c].(isLoadingMore := false, error := true)];
        return;
      }
      var prev := if c in messagesByChannel then messagesByChannel[c] else [];
      messagesByChannel := messagesByChannel[c := res.value.messages + prev];
      paginationByChannel := paginationByChannel[c :=
        paginationByChannel[c].(cursor := res.value.cursor, hasMore := res.value.hasMore, isLoadingMore := false,
                                error := false)];
    }

    /** Up to the request: false when the message is already listed. */
    method JumpToMessage(c: int, id: int) returns (fetches: bool)
      modifies this
      ensures fetches <==> !Contains(Listed(old(View(c))), id)
      ensures View(c) == if fetches then Started(old(View(c)), Jump(id)) else old(View(c))
      ensures forall d :: d != c ==> View(d) == old(View(d))
    {
      var list := if c in messagesByChannel then messagesByChannel[c] else [];
      for i := 0 to |list|
        invariant forall j :: 0 <= j < i ==> list[j].id != id
      {
        if list[i].id == id {
          return false;
        }
      }
      loadedChannels := loadedChannels + {c};
      return true;
    }

    method OnMessagesAround(c: int, res: Around)
      modifies this
      ensures View(c) == WindowOpened(old(View(c)), res)
      ensures forall d :: d != c ==> View(d) == old(View(d))
    {
      messagesByChannel := messagesByChannel[c := res.messages];
      paginationByChannel := paginationByChannel[c :=
        Pagination(res.olderCursor, res.hasMoreOlder, false, false, res.newerCursor, res.hasMoreNewer, false)];
    }

    method LoadNewerMessages(c: int) returns (cursor: Option<int>)
      modifies this
      ensures cursor.Some? <==> CanLoadNewer(old(View(c)))
      ensures cursor.Some? ==> old(View(c)).page.value.newerCursor == cursor && View(c) == NewerStarted(old(View(c)))
      ensures cursor.None? ==> View(c) == old(View(c))
      ensures forall d :: d != c ==> View(d) == old(View(d))
    {
      if c !in paginationByChannel || paginationByChannel[c].isLoadingNewer || !paginationByChannel[c].hasMoreNewer {
        return None;
      }
      cursor := paginationByChannel[c].newerCursor;
      if cursor.Some? {
        paginationByChannel := paginationByChannel[c := paginationByChannel[c].(isLoadingNewer := true)];
      }
    }

    method OnNewerMessages(c: int, res: Option<Page>)
      requires c in paginationByChannel
      modifies this
      ensures View(c) == if res.Some? then NewerLoaded(old(View(c)), res.value) else NewerFailed(old(View(c)))
      ensures forall d :: d != c ==> View(d) == old(View(d))
    {
      if res.None? {
        paginationByChannel := paginationByChannel[c := paginationByChannel[c].(isLoadingNewer := false)];
        return;
      }
      var prev := if c in messagesByChannel then messagesByChannel[c] else [];
      messagesByChannel := messagesByChannel[c := prev + res.value.messages];
      paginationByChannel := paginationByChannel[c :=
        paginationByChannel[c].(newerCursor := res.value.cursor, hasMoreNewer := res.value.hasMore,
                                isLoadingNewer := false)];
    }

    method OnLiveTail(c: int, res: Page)
      modifies this
      ensures View(c) == TailReloaded(old(View(c)), res)
      ensures forall d :: d != c ==> View(d) == old(View(d))
    {
      messagesByChannel := messagesByChannel[c := res.messages];
      paginationByChannel :=
          paginationByChannel[c := Pagination(res.cursor, res.hasMore, false, false, None, false, false)];
    }
  }
}

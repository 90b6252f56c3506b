/** One quality sample: loss from counter deltas, the worst stream, the worst metric. */
module ConnectionQuality {
  import opened Options
  import opened Hysteresis
  import opened CounterRuns

  /** The entries of a stats report that a sample reads; absent numbers are None. */
  datatype Stat =
    | InboundRtp(id: string, packetsReceived: Option<int>, packetsLost: Option<int>, jitter: Option<real>)
    | RemoteInboundRtp(id: string, localId: string, packetsLost: Option<int>, fractionLost: Option<real>,
                       jitter: Option<real>, roundTripTime: Option<real>)
    | OutboundRtp(id: string, packetsSent: Option<int>)
    | OtherStat(id: string)

  datatype InCounters = InCounters(received: int, lost: int)
  datatype OutCounters = OutCounters(lost: int, sent: int)

  /** Counters remembered per stream id, and packets sent per outbound stream id. */
  type InboundMap = map<string, InCounters>
  type RemoteMap = map<string, OutCounters>
  type SentMap = map<string, int>

  datatype Metrics = Metrics(rttMs: Option<real>, inboundLoss: Option<real>, inboundJitter: Option<real>,
                             outboundLoss: Option<real>, outboundJitter: Option<real>)

  const EMPTY_METRICS := Metrics(None, None, None, None, None)

  const MIN_PACKETS_FOR_LOSS := 20
  const RTT_MEDIUM_MS := 200.0
  const RTT_BAD_MS := 400.0
  const LOSS_MEDIUM_PERCENT := 2.0
  const LOSS_BAD_PERCENT := 8.0
  const JITTER_MEDIUM_MS := 30.0
  const JITTER_BAD_MS := 80.0

  function OrZero(x: Option<int>): int { if x.Some? then x.value else 0 }

  // ----- Loss of one stream over one window -----

  function LossPercent(lost: int, total: int): Option<real> {
    if total < MIN_PACKETS_FOR_LOSS then None
    else
      var p := lost as real / total as real * 100.0;
      Some(if p < 0.0 then 0.0 else if p > 100.0 then 100.0 else p)
  }

  function InCountersOf(s: Stat): InCounters
    requires s.InboundRtp?
  {
    InCounters(OrZero(s.packetsReceived), Positive(OrZero(s.packetsLost)))
  }

  /** Packets sent by the outbound stream a remote report is about; 0 when it cannot be found. */
  function OutCountersOf(sentBy: SentMap, s: Stat): OutCounters
    requires s.RemoteInboundRtp?
  {
    OutCounters(Positive(OrZero(s.packetsLost)),
                if s.localId != "" && s.localId in sentBy then sentBy[s.localId] else 0)
  }

  function InDelta(was: InCounters, now: InCounters): InCounters {
    InCounters(Positive(now.received - was.received), Positive(now.lost - was.lost))
  }

  function OutDelta(was: OutCounters, now: OutCounters): OutCounters {
    OutCounters(Positive(now.lost - was.lost), Positive(now.sent - was.sent))
  }

  function InboundLoss(previous: InboundMap, s: Stat): Option<real>
    requires s.InboundRtp?
  {
    if s.id !in previous then None
    else
      var d := InDelta(previous[s.id], InCountersOf(s));
      LossPercent(d.lost, d.lost + d.received)
  }

  /** From the deltas, or else from the fraction the remote side reported. */
  function OutboundLoss(previous: RemoteMap, sentBy: SentMap, s: Stat): Option<real>
    requires s.RemoteInboundRtp?
  {
    if s.id !in previous then None
    else
      var d := OutDelta(previous[s.id], OutCountersOf(sentBy, s));
      var fromDelta := LossPercent(d.lost, d.sent);
      if fromDelta.Some? then fromDelta
      else if s.fractionLost.Some? then Some(s.fractionLost.value * 100.0)
      else None
  }

  function Millis(seconds: Option<real>): Option<real> { if seconds.Some? then Some(seconds.value * 1000.0) else None }

  // ----- What a sample must be -----

  /** Entries that have an id have different ones. */
  predicate UniqueIds(report: seq<Stat>) {
    forall i, j :: 0 <= i < j < |report| && report[i].id != "" ==> report[i].id != report[j].id
  }

  function SentBy(report: set<Stat>): SentMap
    requires UniqueInSet(report)
  {
    map s | s in report && s.OutboundRtp? && s.id != "" && s.packetsSent.Some? :: s.id := s.packetsSent.value
  }

  predicate UniqueInSet(report: set<Stat>) {
    forall s, t :: s in report && t in report && s.id == t.id != "" ==> s == t
  }

  function Entries(report: seq<Stat>): set<Stat> { set s | s in report }

  function Inbounds(report: set<Stat>): set<Stat> { set s | s in report && s.InboundRtp? && s.id != "" }

  function RemoteInbounds(report: set<Stat>): set<Stat> { set s | s in report && s.RemoteInboundRtp? && s.id != "" }

  function NextInbound(report: set<Stat>): InboundMap
    requires UniqueInSet(report)
  {
    map s | s in Inbounds(report) :: s.id := InCountersOf(s)
  }

  function NextRemote(report: set<Stat>, sentBy: SentMap): RemoteMap
    requires UniqueInSet(report)
  {
    map s | s in RemoteInbounds(report) :: s.id := OutCountersOf(sentBy, s)
  }

  function InboundLosses(report: set<Stat>, previous: InboundMap): set<real> {
    set s | s in Inbounds(report) && InboundLoss(previous, s).Some? :: InboundLoss(previous, s).value
  }

  function OutboundLosses(report: set<Stat>, previous: RemoteMap, sentBy: SentMap): set<real> {
    set s | s in RemoteInbounds(report) && OutboundLoss(previous, sentBy, s).Some? ::
        OutboundLoss(previous, sentBy, s).value
  }

  function Jitters(stats: set<Stat>): set<real> {
    set s | s in stats && (s.InboundRtp? || s.RemoteInboundRtp?) && s.jitter.Some? :: Millis(s.jitter).value
  }

  /** The largest of the values, or nothing when there is none. */
  predicate IsWorst(o: Option<real>, values: set<real>) {
    && (o.None? <==> values == {})
    && (o.Some? ==> o.value in values && forall x :: x in values ==> x <= o.value)
  }

  /** The loss and jitter figures of a sample are the worst streams' figures. */
  predicate WorstStreams(m: Metrics, report: set<Stat>, inbound: InboundMap, remote: RemoteMap)
    requires UniqueInSet(report)
  {
    && IsWorst(m.inboundLoss, InboundLosses(report, inbound))
    && IsWorst(m.inboundJitter, Jitters(Inbounds(report)))
    && IsWorst(m.outboundLoss, OutboundLosses(report, remote, SentBy(report)))
    && IsWorst(m.outboundJitter, Jitters(RemoteInbounds(report)))
  }

  // ----- Properties of the figures -----

  lemma PercentInRange(lost: int, total: int)
    ensures LossPercent(lost, total).Some? <==> total >= MIN_PACKETS_FOR_LOSS
    ensures LossPercent(lost, total).Some? ==> 0.0 <= LossPercent(lost, total).value <= 100.0
  {
  }

  /** A loss figure taken from counter deltas is a percentage, and exists exactly for streams seen before with enough
      packets in the window. */
  lemma InboundLossIsAPercentage(previous: InboundMap, s: Stat)
    requires s.InboundRtp?
    ensures var loss := InboundLoss(previous, s);
            && (loss.Some? <==>
                s.id in previous
                && var d := InDelta(previous[s.id], InCountersOf(s)); d.lost + d.received >= MIN_PACKETS_FOR_LOSS)
            && (loss.Some? ==> 0.0 <= loss.value <= 100.0)
            && (loss.Some? ==> var d := InDelta(previous[s.id], InCountersOf(s));
                  loss.value * (d.lost + d.received) as real == 100.0 * d.lost as real)
  {
    if s.id in previous {
      var d := InDelta(previous[s.id], InCountersOf(s));
      var total := d.lost + d.received;
      PercentInRange(d.lost, total);
      if total >= MIN_PACKETS_FOR_LOSS {
        Quotient(d.lost, total);
      }
    }
  }

  lemma Quotient(lost: int, total: int)
    requires 0 <= lost <= total && total > 0
    ensures var q := lost as real / total as real; 0.0 <= q <= 1.0 && q * 100.0 * total as real == 100.0 * lost as real
  {
    var q, t := lost as real / total as real, total as real;
    assert q * t == lost as real;
    assert q * 100.0 * t == 100.0 * (q * t);
    assert (1.0 - q) * t >= 0.0;
  }

  /** Outbound loss is counted when the window has enough packets, and is then a percentage that treats losing more than
      was sent as losing everything. Otherwise it is what the remote side reported, a percentage exactly when that
      report is a fraction. */
  lemma OutboundLossIsAPercentageIff(previous: RemoteMap, sentBy: SentMap, s: Stat)
    requires s.RemoteInboundRtp? && s.id in previous
    ensures var loss, was, now := OutboundLoss(previous, sentBy, s), previous[s.id], OutCountersOf(sentBy, s);
            var lost, sent := Positive(now.lost - was.lost), Positive(now.sent - was.sent);
            if sent >= MIN_PACKETS_FOR_LOSS then
              && loss.Some? && 0.0 <= loss.value <= 100.0
              && loss.value * sent as real == 100.0 * (if lost < sent then lost else sent) as real
            else
              && (loss.Some? <==> s.fractionLost.Some?)
              && (loss.Some? ==> (0.0 <= loss.value <= 100.0 <==> 0.0 <= s.fractionLost.value <= 1.0))
  {
    var was, now := previous[s.id], OutCountersOf(sentBy, s);
    var lost, sent := Positive(now.lost - was.lost), Positive(now.sent - was.sent);
    PercentInRange(lost, sent);
    if sent >= MIN_PACKETS_FOR_LOSS {
      CappedQuotient(lost, sent);
    }
  }

  lemma CappedQuotient(lost: nat, total: nat)
    requires total >= MIN_PACKETS_FOR_LOSS
    ensures LossPercent(lost, total).value * total as real == 100.0 * (if lost < total then lost else total) as real
  {
    var q, t := lost as real / total as real, total as real;
    assert q * t == lost as real;
    if lost <= total {
      Quotient(lost, total);
    } else {
      assert q > 1.0 by { assert (q - 1.0) * t > 0.0; }
    }
  }

  /** The jitter figures are a thousand times the seconds that the entries report. */
  lemma JittersAreMilliseconds(stats: set<Stat>, x: real)
    ensures x in Jitters(stats) <==>
              exists s :: s in stats && (s.InboundRtp? || s.RemoteInboundRtp?) && s.jitter.Some?
                && x == 1000.0 * s.jitter.value
  {
  }

  /** The counters of a remote entry: what it reports lost, and what the outbound entry that it is about has sent. */
  lemma OutCountersAre(report: set<Stat>, s: Stat)
    requires UniqueInSet(report) && s.RemoteInboundRtp?
    ensures var c := OutCountersOf(SentBy(report), s);
            && (c.lost >= 0 && (c.lost > 0 ==> s.packetsLost == Some(c.lost)))
            && (s.packetsLost.Some? && s.packetsLost.value > 0 ==> c.lost == s.packetsLost.value)
            && (forall o :: o in report && o.OutboundRtp? && o.id == s.localId != "" && o.packetsSent.Some? ==>
                  c.sent == o.packetsSent.value)
            && ((forall o :: o in report && o.OutboundRtp? && o.packetsSent.Some? ==> o.id != s.localId || o.id == "")
                  ==> c.sent == 0)
  {
    var sentBy := SentBy(report);
    forall o | o in report && o.OutboundRtp? && o.id == s.localId != "" && o.packetsSent.Some?
      ensures o.id in sentBy && sentBy[o.id] == o.packetsSent.value
    {
    }
  }

  lemma InCountersAre(s: Stat)
    requires s.InboundRtp?
    ensures var c := InCountersOf(s);
            && c.received == (if s.packetsReceived.Some? then s.packetsReceived.value else 0)
            && c.lost == (if s.packetsLost.Some? && s.packetsLost.value > 0 then s.packetsLost.value else 0)
  {
  }

  lemma WorstIsUnique(a: Option<real>, b: Option<real>, values: set<real>)
    requires IsWorst(a, values) && IsWorst(b, values)
    ensures a == b
  {
    if a.Some? && b.Some? {
      assert a.value in values && b.value in values;
      assert a.value <= b.value <= a.value;
    }
  }

  lemma SameEntries(r: seq<Stat>, q: seq<Stat>)
    requires multiset(r) == multiset(q)
    ensures Entries(r) == Entries(q)
  {
    forall s ensures s in r <==> s in q {
      assert s in multiset(r) <==> s in r;
      assert s in multiset(q) <==> s in q;
    }
  }

  lemma UniqueEntries(r: seq<Stat>)
    requires UniqueIds(r)
    ensures UniqueInSet(Entries(r))
  {
  }

  /** Two orders of the same report give the same loss and jitter figures and the same counters for the next window. */
  lemma OrderDoesNotMatter(r: seq<Stat>, q: seq<Stat>, m: Metrics, n: Metrics,
                           inbound: InboundMap, remote: RemoteMap)
    requires multiset(r) == multiset(q) && UniqueIds(r) && UniqueIds(q)
    requires UniqueInSet(Entries(r)) && UniqueInSet(Entries(q))
    requires WorstStreams(m, Entries(r), inbound, remote) && WorstStreams(n, Entries(q), inbound, remote)
    ensures m.(rttMs := None) == n.(rttMs := None)
    ensures NextInbound(Entries(r)) == NextInbound(Entries(q))
    ensures NextRemote(Entries(r), SentBy(Entries(r))) == NextRemote(Entries(q), SentBy(Entries(q)))
  {
    SameEntries(r, q);
    var report := Entries(r);
    WorstIsUnique(m.inboundLoss, n.inboundLoss, InboundLosses(report, inbound));
    WorstIsUnique(m.inboundJitter, n.inboundJitter, Jitters(Inbounds(report)));
    WorstIsUnique(m.outboundLoss, n.outboundLoss, OutboundLosses(report, remote, SentBy(report)));
    WorstIsUnique(m.outboundJitter, n.outboundJitter, Jitters(RemoteInbounds(report)));
  }

  // ----- Deltas over a run of reports -----

  ghost predicate AllUnique(reports: seq<set<Stat>>) { forall k :: 0 <= k < |reports| ==> UniqueInSet(reports[k]) }

  /** What the samples count for an inbound stream: in each report that has it, against the counters the tracker kept
      from the report before, if that had it too. */
  ghost function WindowTotals(reports: seq<set<Stat>>, id: string): InCounters
    requires AllUnique(reports)
  {
    if |reports| < 2 then InCounters(0, 0)
    else
      var n := |reports| - 1;
      var before, previous, now := WindowTotals(reports[..n], id), NextInbound(reports[n-1]), NextInbound(reports[n]);
      if id in previous && id in now then
        var d := InDelta(previous[id], now[id]);
        InCounters(before.received + d.received, before.lost + d.lost)
      else before
  }

  ghost function Received(report: set<Stat>, id: string): Option<int>
    requires UniqueInSet(report)
  {
    if id in NextInbound(report) then Some(NextInbound(report)[id].received) else None
  }

  ghost function Lost(report: set<Stat>, id: string): Option<int>
    requires UniqueInSet(report)
  {
    if id in NextInbound(report) then Some(NextInbound(report)[id].lost) else None
  }

  ghost function ReceivedReadings(reports: seq<set<Stat>>, id: string): seq<Option<int>>
    requires AllUnique(reports)
  {
    seq(|reports|, k requires 0 <= k < |reports| => Received(reports[k], id))
  }

  ghost function LostReadings(reports: seq<set<Stat>>, id: string): seq<Option<int>>
    requires AllUnique(reports)
  {
    seq(|reports|, k requires 0 <= k < |reports| => Lost(reports[k], id))
  }

  lemma CountedNext(cs: seq<Option<int>>, prev: seq<Option<int>>)
    requires |cs| >= 2 && prev == cs[..|cs|-1]
    ensures Counted(cs) == Counted(prev)
              + if cs[|cs|-2].Some? && cs[|cs|-1].Some? then Positive(cs[|cs|-1].value - cs[|cs|-2].value) else 0
  {
  }

  lemma CountedShort(cs: seq<Option<int>>)
    requires |cs| < 2
    ensures Counted(cs) == 0
  {
  }

  lemma {:induction false} TotalsAreCounted(reports: seq<set<Stat>>, id: string)
    requires AllUnique(reports)
    ensures WindowTotals(reports, id).received == Counted(ReceivedReadings(reports, id))
    ensures WindowTotals(reports, id).lost == Counted(LostReadings(reports, id))
    decreases |reports|
  {
    var received, lost := ReceivedReadings(reports, id), LostReadings(reports, id);
    if |reports| < 2 {
      CountedShort(received);
      CountedShort(lost);
    } else {
      var n := |reports| - 1;
      TotalsAreCounted(reports[..n], id);
      assert ReceivedReadings(reports[..n], id) == received[..n] && LostReadings(reports[..n], id) == lost[..n];
      CountedNext(received, received[..n]);
      CountedNext(lost, lost[..n]);
    }
  }

  /** Over any run of reports, absences and resets included, what the windows of an inbound stream add up to. */
  lemma WindowsSumToGrowthIff(reports: seq<set<Stat>>, id: string)
    requires AllUnique(reports)
    ensures Accounts(WindowTotals(reports, id).received, ReceivedReadings(reports, id))
    ensures Accounts(WindowTotals(reports, id).lost, LostReadings(reports, id))
  {
    TotalsAreCounted(reports, id);
    CountedAccounts(ReceivedReadings(reports, id));
    CountedAccounts(LostReadings(reports, id));
  }

  ghost function RemoteCounters(report: set<Stat>): RemoteMap
    requires UniqueInSet(report)
  {
    NextRemote(report, SentBy(report))
  }

  /** The same for an outbound stream, from the remote side's reports about it. */
  ghost function OutWindowTotals(reports: seq<set<Stat>>, id: string): OutCounters
    requires AllUnique(reports)
  {
    if |reports| < 2 then OutCounters(0, 0)
    else
      var n := |reports| - 1;
      var before, previous, now := OutWindowTotals(reports[..n], id), RemoteCounters(reports[n-1]),
          RemoteCounters(reports[n]);
      if id in previous && id in now then
        var d := OutDelta(previous[id], now[id]);
        OutCounters(before.lost + d.lost, before.sent + d.sent)
      else before
  }

  ghost function OutLost(report: set<Stat>, id: string): Option<int>
    requires UniqueInSet(report)
  {
    if id in RemoteCounters(report) then Some(RemoteCounters(report)[id].lost) else None
  }

  ghost function OutSent(report: set<Stat>, id: string): Option<int>
    requires UniqueInSet(report)
  {
    if id in RemoteCounters(report) then Some(RemoteCounters(report)[id].sent) else None
  }

  ghost function OutLostReadings(reports: seq<set<Stat>>, id: string): seq<Option<int>>
    requires AllUnique(reports)
  {
    seq(|reports|, k requires 0 <= k < |reports| => OutLost(reports[k], id))
  }

  ghost function OutSentReadings(reports: seq<set<Stat>>, id: string): seq<Option<int>>
    requires AllUnique(reports)
  {
    seq(|reports|, k requires 0 <= k < |reports| => OutSent(reports[k], id))
  }

  lemma {:induction false} OutTotalsAreCounted(reports: seq<set<Stat>>, id: string)
    requires AllUnique(reports)
    ensures OutWindowTotals(reports, id).lost == Counted(OutLostReadings(reports, id))
    ensures OutWindowTotals(reports, id).sent == Counted(OutSentReadings(reports, id))
    decreases |reports|
  {
    var lost, sent := OutLostReadings(reports, id), OutSentReadings(reports, id);
    if |reports| < 2 {
      CountedShort(lost);
      CountedShort(sent);
    } else {
      var n := |reports| - 1;
      OutTotalsAreCounted(reports[..n], id);
      assert OutLostReadings(reports[..n], id) == lost[..n] && OutSentReadings(reports[..n], id) == sent[..n];
      CountedNext(lost, lost[..n]);
      CountedNext(sent, sent[..n]);
    }
  }

  lemma OutboundWindowsSumToGrowthIff(reports: seq<set<Stat>>, id: string)
    requires AllUnique(reports)
    ensures Accounts(OutWindowTotals(reports, id).lost, OutLostReadings(reports, id))
    ensures Accounts(OutWindowTotals(reports, id).sent, OutSentReadings(reports, id))
  {
    OutTotalsAreCounted(reports, id);
    CountedAccounts(OutLostReadings(reports, id));
    CountedAccounts(OutSentReadings(reports, id));
  }

  // ----- Levels -----

  function Classify(value: Option<real>, mediumAt: real, badAt: real): Option<Level> {
    if value.None? then None
    else if value.value >= badAt then Some(Bad)
    else if value.value >= mediumAt then Some(Medium)
    else Some(Good)
  }

  predicate AtLeast(value: Option<real>, threshold: real) { value.Some? && value.value >= threshold }

  /** The bottleneck principle: any metric at its bad threshold makes the sample bad, any at its medium threshold
      makes it medium, and no metric at all is no measurement. */
  function Bottleneck(m: Metrics): Option<Level> {
    if AtLeast(m.rttMs, RTT_BAD_MS)
       || AtLeast(m.inboundLoss, LOSS_BAD_PERCENT) || AtLeast(m.outboundLoss, LOSS_BAD_PERCENT)
       || AtLeast(m.inboundJitter, JITTER_BAD_MS) || AtLeast(m.outboundJitter, JITTER_BAD_MS) then Some(Bad)
    else if AtLeast(m.rttMs, RTT_MEDIUM_MS)
       || AtLeast(m.inboundLoss, LOSS_MEDIUM_PERCENT) || AtLeast(m.outboundLoss, LOSS_MEDIUM_PERCENT)
       || AtLeast(m.inboundJitter, JITTER_MEDIUM_MS) || AtLeast(m.outboundJitter, JITTER_MEDIUM_MS) then Some(Medium)
    else if m == EMPTY_METRICS then None
    else Some(Good)
  }

  /** The thresholds in numbers: milliseconds of round trip, percent of loss, milliseconds of jitter. */
  lemma BottleneckIs(m: Metrics)
    ensures Bottleneck(m) == Some(Bad) <==>
              AtLeast(m.rttMs, 400.0) || AtLeast(m.inboundLoss, 8.0) || AtLeast(m.outboundLoss, 8.0)
              || AtLeast(m.inboundJitter, 80.0) || AtLeast(m.outboundJitter, 80.0)
    ensures Bottleneck(m) in {Some(Medium), Some(Bad)} <==>
              AtLeast(m.rttMs, 200.0) || AtLeast(m.inboundLoss, 2.0) || AtLeast(m.outboundLoss, 2.0)
              || AtLeast(m.inboundJitter, 30.0) || AtLeast(m.outboundJitter, 30.0)
    ensures Bottleneck(m).None? <==> m == EMPTY_METRICS
  {
  }

  function InboundLevel(m: Metrics): Option<Level> {
    Bottleneck(EMPTY_METRICS.(inboundLoss := m.inboundLoss, inboundJitter := m.inboundJitter))
  }

  function OutboundLevel(m: Metrics): Option<Level> {
    Bottleneck(EMPTY_METRICS.(outboundLoss := m.outboundLoss, outboundJitter := m.outboundJitter))
  }

  predicate IsWorstLevel(r: Option<Level>, levels: seq<Option<Level>>) {
    && (forall l :: l in levels && l.Some? ==> r.Some? && Rank(l.value) <= Rank(r.value))
    && (r.Some? ==> r in levels)
  }

  method WorstLevel(levels: seq<Option<Level>>) returns (result: Option<Level>)
    ensures IsWorstLevel(result, levels)
  {
    result := None;
    for i := 0 to |levels|
      invariant IsWorstLevel(result, levels[..i])
    {
      var level := levels[i];
      if level.Some? && (result.None? || Rank(level.value) > Rank(result.value)) {
        result := level;
      }
      assert levels[..i+1] == levels[..i] + [level];
    }
    assert levels[..|levels|] == levels;
  }

  /** The side that is worse, where no figures count as good. */
  datatype Direction = Inbound | Outbound | Neither

  function PickDirection(inbound: Option<Level>, outbound: Option<Level>): Direction {
    if inbound.Some? && outbound.Some? then
      if Rank(inbound.value) > Rank(outbound.value) then Inbound
      else if Rank(outbound.value) > Rank(inbound.value) then Outbound
      else Neither
    else if inbound.Some? && inbound.value != Good then Inbound
    else if outbound.Some? && outbound.value != Good then Outbound
    else Neither
  }

  function Badness(l: Option<Level>): int { if l.Some? then Rank(l.value) else 0 }

  lemma DirectionIsTheWorseSide(inbound: Option<Level>, outbound: Option<Level>)
    requires inbound.Some? ==> Measured(inbound.value)
    requires outbound.Some? ==> Measured(outbound.value)
    ensures PickDirection(inbound, outbound) == Inbound <==> Badness(inbound) > Badness(outbound)
    ensures PickDirection(inbound, outbound) == Outbound <==> Badness(outbound) > Badness(inbound)
  {
  }

  // ----- The tracker object -----

  function WorstNumber(current: Option<real>, candidate: Option<real>): Option<real> {
    if candidate.None? then current
    else if current.None? then candidate
    else Some(if current.value >= candidate.value then current.value else candidate.value)
  }

  lemma WorstOfOneMore(o: Option<real>, values: set<real>, x: Option<real>, values': set<real>)
    requires IsWorst(o, values)
    requires values' == if x.Some? then values + {x.value} else values
    ensures IsWorst(WorstNumber(o, x), values')
  {
  }

  /** The selected pair's round-trip time, or else the first one a remote report carries. */
  function FirstRtt(iceRtt: Option<real>, report: seq<Stat>): Option<real> {
    if report == [] then iceRtt
    else RttAfter(FirstRtt(iceRtt, report[..|report|-1]), report[|report|-1])
  }

  function RttAfter(before: Option<real>, s: Stat): Option<real> {
    if before.Some? || !s.RemoteInboundRtp? || s.id == "" then before else Millis(s.roundTripTime)
  }

  /** An entry whose round-trip time counts when the selected pair has none. */
  predicate TellsRtt(s: Stat) { s.RemoteInboundRtp? && s.id != "" && s.roundTripTime.Some? }

  /** The round-trip time is the selected pair's, or else a thousand times the seconds of the first entry that has one.
      */
  lemma {:induction false} RttIsMilliseconds(iceRtt: Option<real>, report: seq<Stat>)
    ensures iceRtt.Some? ==> FirstRtt(iceRtt, report) == iceRtt
    ensures iceRtt.None? && FirstRtt(iceRtt, report).None? ==> forall s :: s in report ==> !TellsRtt(s)
    ensures iceRtt.None? && FirstRtt(iceRtt, report).Some? ==>
              exists i :: 0 <= i < |report| && TellsRtt(report[i])
                && FirstRtt(iceRtt, report).value == 1000.0 * report[i].roundTripTime.value
                && forall j :: 0 <= j < i ==> !TellsRtt(report[j])
    decreases |report|
  {
    if report != [] {
      var n := |report| - 1;
      RttIsMilliseconds(iceRtt, report[..n]);
      if iceRtt.None? {
        if FirstRtt(iceRtt, report[..n]).None? {
          assert forall j :: 0 <= j < n ==> report[j] in report[..n];
        } else {
          var i :| 0 <= i < n && TellsRtt(report[..n][i])
                   && FirstRtt(iceRtt, report[..n]).value == 1000.0 * report[..n][i].roundTripTime.value
                   && forall j :: 0 <= j < i ==> !TellsRtt(report[..n][j]);
          assert TellsRtt(report[i]) && forall j :: 0 <= j < i ==> report[j] == report[..n][j];
        }
      }
    }
  }

  predicate WorstSoFar(m: Metrics, report: set<Stat>, inbound: InboundMap, remote: RemoteMap,
                       sentBy: SentMap)
  {
    && IsWorst(m.inboundLoss, InboundLosses(report, inbound))
    && IsWorst(m.inboundJitter, Jitters(Inbounds(report)))
    && IsWorst(m.outboundLoss, OutboundLosses(report, remote, sentBy))
    && IsWorst(m.outboundJitter, Jitters(RemoteInbounds(report)))
  }

  lemma PrefixOneMore(report: seq<Stat>, i: nat)
    requires UniqueIds(report) && i < |report|
    ensures Entries(report[..i+1]) == Entries(report[..i]) + {report[i]}
    ensures UniqueInSet(Entries(report[..i+1]))
    ensures report[i].id != "" ==> forall s :: s in Entries(report[..i]) ==> s.id != report[i].id
  {
    assert report[..i+1] == report[..i] + [report[i]];
    UniqueEntries(report[..i+1]);
  }

  lemma SentOneMore(report: seq<Stat>, i: nat)
    requires UniqueIds(report) && i < |report|
    ensures UniqueInSet(Entries(report[..i])) && UniqueInSet(Entries(report[..i+1]))
    ensures var s, sentBy := report[i], SentBy(Entries(report[..i]));
            SentBy(Entries(report[..i+1])) ==
              if s.OutboundRtp? && s.id != "" && s.packetsSent.Some? then sentBy[s.id := s.packetsSent.value]
              else sentBy
  {
    PrefixOneMore(report, i);
  }

  lemma AllSent(report: seq<Stat>)
    requires UniqueIds(report)
    ensures UniqueInSet(Entries(report)) && UniqueInSet(Entries(report[..|report|]))
    ensures SentBy(Entries(report[..|report|])) == SentBy(Entries(report))
  {
    assert report[..|report|] == report;
  }

  lemma InboundOneMore(m: Metrics, report: set<Stat>, s: Stat, inbound: InboundMap,
                       remote: RemoteMap, sentBy: SentMap)
    requires WorstSoFar(m, report, inbound, remote, sentBy) && s.InboundRtp? && s.id != ""
    ensures WorstSoFar(m.(inboundLoss := WorstNumber(m.inboundLoss, InboundLoss(inbound, s)),
                          inboundJitter := WorstNumber(m.inboundJitter, Millis(s.jitter))),
                       report + {s}, inbound, remote, sentBy)
  {
    var more := report + {s};
    assert Inbounds(more) == Inbounds(report) + {s} && RemoteInbounds(more) == RemoteInbounds(report);
    WorstOfOneMore(m.inboundLoss, InboundLosses(report, inbound), InboundLoss(inbound, s),
                   InboundLosses(more, inbound));
    WorstOfOneMore(m.inboundJitter, Jitters(Inbounds(report)), Millis(s.jitter), Jitters(Inbounds(more)));
  }

  lemma RemoteOneMore(m: Metrics, report: set<Stat>, s: Stat, inbound: InboundMap,
                      remote: RemoteMap, sentBy: SentMap)
    requires WorstSoFar(m, report, inbound, remote, sentBy) && s.RemoteInboundRtp? && s.id != ""
    ensures WorstSoFar(m.(outboundLoss := WorstNumber(m.outboundLoss, OutboundLoss(remote, sentBy, s)),
                          outboundJitter := WorstNumber(m.outboundJitter, Millis(s.jitter))),
                       report + {s}, inbound, remote, sentBy)
  {
    var more := report + {s};
    assert RemoteInbounds(more) == RemoteInbounds(report) + {s} && Inbounds(more) == Inbounds(report);
    WorstOfOneMore(m.outboundLoss, OutboundLosses(report, remote, sentBy), OutboundLoss(remote, sentBy, s),
                   OutboundLosses(more, remote, sentBy));
    WorstOfOneMore(m.outboundJitter, Jitters(RemoteInbounds(report)), Millis(s.jitter), Jitters(RemoteInbounds(more)));
  }

  lemma OtherOneMore(m: Metrics, report: set<Stat>, s: Stat, inbound: InboundMap,
                     remote: RemoteMap, sentBy: SentMap)
    requires WorstSoFar(m, report, inbound, remote, sentBy)
    requires s.id == "" || !(s.InboundRtp? || s.RemoteInboundRtp?)
    ensures WorstSoFar(m, report + {s}, inbound, remote, sentBy)
  {
    var more := report + {s};
    assert RemoteInbounds(more) == RemoteInbounds(report) && Inbounds(more) == Inbounds(report);
  }

  lemma InboundsOneMore(report: set<Stat>, s: Stat)
    ensures Inbounds(report + {s}) == Inbounds(report) + if s.InboundRtp? && s.id != "" then {s} else {}
    ensures RemoteInbounds(report + {s}) ==
              RemoteInbounds(report) + if s.RemoteInboundRtp? && s.id != "" then {s} else {}
  {
  }

  lemma InboundCountersOneMore(report: set<Stat>, s: Stat)
    requires UniqueInSet(report) && UniqueInSet(report + {s})
    ensures NextInbound(report + {s}) ==
              if s.InboundRtp? && s.id != "" then NextInbound(report)[s.id := InCountersOf(s)] else NextInbound(report)
  {
    InboundsOneMore(report, s);
    if !(s.InboundRtp? && s.id != "") {
      assert Inbounds(report + {s}) == Inbounds(report);
    }
  }

  lemma RemoteCountersOneMore(report: set<Stat>, s: Stat, sentBy: SentMap)
    requires UniqueInSet(report) && UniqueInSet(report + {s})
    ensures NextRemote(report + {s}, sentBy) ==
              if s.RemoteInboundRtp? && s.id != "" then NextRemote(report, sentBy)[s.id := OutCountersOf(sentBy, s)]
              else NextRemote(report, sentBy)
  {
    InboundsOneMore(report, s);
    if !(s.RemoteInboundRtp? && s.id != "") {
      assert RemoteInbounds(report + {s}) == RemoteInbounds(report);
    }
  }

  /** The loop's state after the entries in `seen`. */
  predicate Scanned(m: Metrics, nextInbound: InboundMap, nextRemote: RemoteMap, seen: set<Stat>,
                    inbound: InboundMap, remote: RemoteMap, sentBy: SentMap)
  {
    && UniqueInSet(seen)
    && nextInbound == NextInbound(seen)
    && nextRemote == NextRemote(seen, sentBy)
    && WorstSoFar(m, seen, inbound, remote, sentBy)
  }

  lemma NothingScanned(m: Metrics, inbound: InboundMap, remote: RemoteMap, sentBy: SentMap)
    requires m == EMPTY_METRICS.(rttMs := m.rttMs)
    ensures Scanned(m, map[], map[], {}, inbound, remote, sentBy)
  {
    assert Inbounds({}) == {} && RemoteInbounds({}) == {};
  }

  lemma ScanOneMore(m: Metrics, nextInbound: InboundMap, nextRemote: RemoteMap, seen: set<Stat>,
                    s: Stat, inbound: InboundMap, remote: RemoteMap, sentBy: SentMap)
    requires Scanned(m, nextInbound, nextRemote, seen, inbound, remote, sentBy) && UniqueInSet(seen + {s})
    ensures
      if s.id != "" && s.InboundRtp? then
        forall rtt :: Scanned(Metrics(rtt, WorstNumber(m.inboundLoss, InboundLoss(inbound, s)),
                                      WorstNumber(m.inboundJitter, Millis(s.jitter)), m.outboundLoss, m.outboundJitter),
                              nextInbound[s.id := InCountersOf(s)], nextRemote, seen + {s}, inbound, remote, sentBy)
      else if s.id != "" && s.RemoteInboundRtp? then
        forall rtt :: Scanned(Metrics(rtt, m.inboundLoss, m.inboundJitter,
                                      WorstNumber(m.outboundLoss, OutboundLoss(remote, sentBy, s)),
                                      WorstNumber(m.outboundJitter, Millis(s.jitter))),
                              nextInbound, nextRemote[s.id := OutCountersOf(sentBy, s)], seen + {s}, inbound, remote,
                                  sentBy)
      else Scanned(m, nextInbound, nextRemote, seen + {s}, inbound, remote, sentBy)
  {
    InboundCountersOneMore(seen, s);
    RemoteCountersOneMore(seen, s, sentBy);
    if s.id != "" && s.InboundRtp? {
      InboundOneMore(m, seen, s, inbound, remote, sentBy);
    } else if s.id != "" && s.RemoteInboundRtp? {
      RemoteOneMore(m, seen, s, inbound, remote, sentBy);
    } else {
      OtherOneMore(m, seen, s, inbound, remote, sentBy);
    }
  }

  /** The loop's state after the first i entries of the report. */
  predicate Read(m: Metrics, nextInbound: InboundMap, nextRemote: RemoteMap, report: seq<Stat>, i: nat,
                 iceRtt: Option<real>, inbound: InboundMap, remote: RemoteMap, sentBy: SentMap)
  {
    && i <= |report|
    && Scanned(m, nextInbound, nextRemote, Entries(report[..i]), inbound, remote, sentBy)
    && m.rttMs == FirstRtt(iceRtt, report[..i])
  }

  lemma NothingRead(report: seq<Stat>, iceRtt: Option<real>, inbound: InboundMap, remote: RemoteMap,
                    sentBy: SentMap)
    ensures Read(EMPTY_METRICS.(rttMs := iceRtt), map[], map[], report, 0, iceRtt, inbound, remote, sentBy)
  {
    NothingScanned(EMPTY_METRICS.(rttMs := iceRtt), inbound, remote, sentBy);
    assert Entries(report[..0]) == {};
  }

  lemma ReadOneMore(m: Metrics, nextInbound: InboundMap, nextRemote: RemoteMap, report: seq<Stat>, i: nat,
                    iceRtt: Option<real>, inbound: InboundMap, remote: RemoteMap, sentBy: SentMap,
                    before: Option<real>)
    requires UniqueIds(report) && i < |report| && before == FirstRtt(iceRtt, report[..i])
    requires Scanned(m, nextInbound, nextRemote, Entries(report[..i]) + {report[i]}, inbound, remote, sentBy)
    requires m.rttMs == RttAfter(before, report[i])
    ensures Read(m, nextInbound, nextRemote, report, i + 1, iceRtt, inbound, remote, sentBy)
  {
    PrefixOneMore(report, i);
    assert report[..i+1][..i] == report[..i];
  }

  lemma AllRead(m: Metrics, nextInbound: InboundMap, nextRemote: RemoteMap, report: seq<Stat>,
                iceRtt: Option<real>, inbound: InboundMap, remote: RemoteMap, sentBy: SentMap)
    requires Read(m, nextInbound, nextRemote, report, |report|, iceRtt, inbound, remote, sentBy)
    ensures Scanned(m, nextInbound, nextRemote, Entries(report), inbound, remote, sentBy)
    ensures m.rttMs == FirstRtt(iceRtt, report)
  {
    assert report[..|report|] == report;
  }

  lemma SideLevel(loss: Option<real>, jitter: Option<real>, r: Option<Level>)
    requires IsWorstLevel(r, [Classify(loss, LOSS_MEDIUM_PERCENT, LOSS_BAD_PERCENT),
                              Classify(jitter, JITTER_MEDIUM_MS, JITTER_BAD_MS)])
    ensures r == InboundLevel(EMPTY_METRICS.(inboundLoss := loss, inboundJitter := jitter))
  {
    WorstOfTwo(r, Classify(loss, LOSS_MEDIUM_PERCENT, LOSS_BAD_PERCENT),
               Classify(jitter, JITTER_MEDIUM_MS, JITTER_BAD_MS));
  }

  lemma SymmetricSides(loss: Option<real>, jitter: Option<real>)
    ensures InboundLevel(EMPTY_METRICS.(inboundLoss := loss, inboundJitter := jitter))
         == OutboundLevel(EMPTY_METRICS.(outboundLoss := loss, outboundJitter := jitter))
  {
  }

  lemma SidesMakeTheBottleneck(m: Metrics, r: Option<Level>)
    requires r == InboundLevel(m) || r == OutboundLevel(m) || r == Classify(m.rttMs, RTT_MEDIUM_MS, RTT_BAD_MS)
    requires forall l ::
               l in {InboundLevel(m), OutboundLevel(m), Classify(m.rttMs, RTT_MEDIUM_MS, RTT_BAD_MS)} && l.Some?
               ==> r.Some? && Rank(l.value) <= Rank(r.value)
    ensures r == Bottleneck(m)
  {
    assert InboundLevel(m) in {InboundLevel(m), OutboundLevel(m), Classify(m.rttMs, RTT_MEDIUM_MS, RTT_BAD_MS)};
    assert OutboundLevel(m) in {InboundLevel(m), OutboundLevel(m), Classify(m.rttMs, RTT_MEDIUM_MS, RTT_BAD_MS)};
    assert Classify(m.rttMs, RTT_MEDIUM_MS, RTT_BAD_MS)
      in {InboundLevel(m), OutboundLevel(m), Classify(m.rttMs, RTT_MEDIUM_MS, RTT_BAD_MS)};
  }

  lemma WorstOfTwo(r: Option<Level>, a: Option<Level>, b: Option<Level>)
    requires IsWorstLevel(r, [a, b])
    ensures r == a || r == b
    ensures a.Some? ==> r.Some? && Rank(a.value) <= Rank(r.value)
    ensures b.Some? ==> r.Some? && Rank(b.value) <= Rank(r.value)
    ensures r.None? ==> a.None? && b.None?
  {
    assert a in [a, b] && b in [a, b];
  }

  lemma WorstOfThree(r: Option<Level>, a: Option<Level>, b: Option<Level>, c: Option<Level>)
    requires IsWorstLevel(r, [a, b, c])
    ensures r == a || r == b || r == c
    ensures a.Some? ==> r.Some? && Rank(a.value) <= Rank(r.value)
    ensures b.Some? ==> r.Some? && Rank(b.value) <= Rank(r.value)
    ensures c.Some? ==> r.Some? && Rank(c.value) <= Rank(r.value)
    ensures r.None? ==> a.None? && b.None? && c.None?
  {
    assert a in [a, b, c] && b in [a, b, c] && c in [a, b, c];
  }

  class QualityTracker {
    var inbound: InboundMap
    var remote: RemoteMap
    var level: Level
    var pendingLevel: Option<Level>
    var pendingCount: nat

    constructor ()
      ensures inbound == map[] && remote == map[] && Tracker(level, pendingLevel, pendingCount) == NEW_TRACKER
    {
      inbound, remote := map[], map[];
      level, pendingLevel, pendingCount := Connecting, None, 0;
    }

    method ApplyHysteresis(candidate: Level) returns (shown: Level)
      modifies this`level, this`pendingLevel, this`pendingCount
      ensures Tracker(level, pendingLevel, pendingCount) ==
          Apply(old(Tracker(level, pendingLevel, pendingCount)), candidate)
      ensures shown == level
    {
      if candidate == Connecting || candidate == Disconnected {
        level := candidate;
        pendingLevel := None;
        pendingCount := 0;
        return candidate;
      }
      var current := level;
      if current == Connecting || current == Disconnected || Rank(candidate) >= Rank(current) {
        level := candidate;
        pendingLevel := None;
        pendingCount := 0;
        return candidate;
      }
      if pendingLevel == Some(candidate) {
        pendingCount := pendingCount + 1;
      } else {
        pendingLevel := Some(candidate);
        pendingCount := 1;
      }
      if pendingCount >= RECOVERY_SAMPLES {
        level := candidate;
        pendingLevel := None;
        pendingCount := 0;
        return candidate;
      }
      return current;
    }

    static method PacketsSent(report: seq<Stat>) returns (sentBy: SentMap)
      requires UniqueIds(report) && UniqueInSet(Entries(report))
      ensures sentBy == SentBy(Entries(report))
    {
      sentBy := map[];
      for i := 0 to |report|
        invariant UniqueInSet(Entries(report[..i]))
        invariant sentBy == SentBy(Entries(report[..i]))
      {
        var s := report[i];
        SentOneMore(report, i);
        if s.OutboundRtp? && s.id != "" && s.packetsSent.Some? {
          sentBy := sentBy[s.id := s.packetsSent.value];
        }
      }
      AllSent(report);
    }

    /** One entry of the report. */
    method ReadStat(s: Stat, sentBy: SentMap, was: Metrics, wasInbound: InboundMap,
                    wasRemote: RemoteMap, ghost seen: set<Stat>)
      returns (metrics: Metrics, nextInbound: InboundMap, nextRemote: RemoteMap)
      requires Scanned(was, wasInbound, wasRemote, seen, inbound, remote, sentBy) && UniqueInSet(seen + {s})
      ensures Scanned(metrics, nextInbound, nextRemote, seen + {s}, inbound, remote, sentBy)
      ensures metrics.rttMs == RttAfter(was.rttMs, s)
    {
      ScanOneMore(was, wasInbound, wasRemote, seen, s, inbound, remote, sentBy);
      metrics, nextInbound, nextRemote := was, wasInbound, wasRemote;
      if s.id == "" {
        return;
      }
      if s.InboundRtp? {
        nextInbound := nextInbound[s.id := InCountersOf(s)];
        metrics := metrics.(inboundLoss := WorstNumber(metrics.inboundLoss, InboundLoss(inbound, s)));
        metrics := metrics.(inboundJitter := WorstNumber(metrics.inboundJitter, Millis(s.jitter)));
        return;
      }
      if s.RemoteInboundRtp? {
        nextRemote := nextRemote[s.id := OutCountersOf(sentBy, s)];
        metrics := metrics.(outboundLoss := WorstNumber(metrics.outboundLoss, OutboundLoss(remote, sentBy, s)));
        metrics := metrics.(outboundJitter := WorstNumber(metrics.outboundJitter, Millis(s.jitter)));
        if metrics.rttMs.None? {
          metrics := metrics.(rttMs := Millis(s.roundTripTime));
        }
      }
    }

    /** The loop over the report's entries: the figures, and the counters to remember. */
    method ReadStats(report: seq<Stat>, iceRtt: Option<real>, sentBy: SentMap)
      returns (metrics: Metrics, nextInbound: InboundMap, nextRemote: RemoteMap)
      requires UniqueIds(report)
      ensures Scanned(metrics, nextInbound, nextRemote, Entries(report), inbound, remote, sentBy)
      ensures metrics.rttMs == FirstRtt(iceRtt, report)
    {
      nextInbound, nextRemote := map[], map[];
      metrics := EMPTY_METRICS.(rttMs := iceRtt);
      NothingRead(report, iceRtt, inbound, remote, sentBy);
      for i := 0 to |report|
        invariant Read(metrics, nextInbound, nextRemote, report, i, iceRtt, inbound, remote, sentBy)
      {
        PrefixOneMore(report, i);
        ghost var rtt := metrics.rttMs;
        metrics, nextInbound, nextRemote :=
          ReadStat(report[i], sentBy, metrics, nextInbound, nextRemote, Entries(report[..i]));
        ReadOneMore(metrics, nextInbound, nextRemote, report, i, iceRtt, inbound, remote, sentBy, rtt);
      }
      AllRead(metrics, nextInbound, nextRemote, report, iceRtt, inbound, remote, sentBy);
    }

    /** One sample. `iceRtt` is the round-trip time of the selected candidate pair, if there is one. */
    method ReadQualitySample(report: seq<Stat>, iceRtt: Option<real>)
      returns (metrics: Metrics, measured: Option<Level>, direction: Direction)
      requires UniqueIds(report) && UniqueInSet(Entries(report))
      modifies this`inbound, this`remote
      ensures WorstStreams(metrics, Entries(report), old(inbound), old(remote))
      ensures metrics.rttMs == FirstRtt(iceRtt, report)
      ensures inbound == NextInbound(Entries(report))
      ensures remote == NextRemote(Entries(report), SentBy(Entries(report)))
      ensures measured == Bottleneck(metrics)
      ensures direction == Inbound <==> Badness(InboundLevel(metrics)) > Badness(OutboundLevel(metrics))
      ensures direction == Outbound <==> Badness(OutboundLevel(metrics)) > Badness(InboundLevel(metrics))
    {
      var sentBy := PacketsSent(report);
      var nextInbound, nextRemote;
      metrics, nextInbound, nextRemote := ReadStats(report, iceRtt, sentBy);
      inbound := nextInbound;
      remote := nextRemote;
      measured, direction := Judge(metrics);
    }

    /** The level and the worse direction of a sample's figures. */
    static method Judge(metrics: Metrics) returns (measured: Option<Level>, direction: Direction)
      ensures measured == Bottleneck(metrics)
      ensures direction == Inbound <==> Badness(InboundLevel(metrics)) > Badness(OutboundLevel(metrics))
      ensures direction == Outbound <==> Badness(OutboundLevel(metrics)) > Badness(InboundLevel(metrics))
    {
      var inLevel := WorstLevel([Classify(metrics.inboundLoss, LOSS_MEDIUM_PERCENT, LOSS_BAD_PERCENT),
                                 Classify(metrics.inboundJitter, JITTER_MEDIUM_MS, JITTER_BAD_MS)]);
      SideLevel(metrics.inboundLoss, metrics.inboundJitter, inLevel);
      var outLevel := WorstLevel([Classify(metrics.outboundLoss, LOSS_MEDIUM_PERCENT, LOSS_BAD_PERCENT),
                                  Classify(metrics.outboundJitter, JITTER_MEDIUM_MS, JITTER_BAD_MS)]);
      SideLevel(metrics.outboundLoss, metrics.outboundJitter, outLevel);
      SymmetricSides(metrics.outboundLoss, metrics.outboundJitter);
      var rttLevel := Classify(metrics.rttMs, RTT_MEDIUM_MS, RTT_BAD_MS);
      measured := WorstLevel([inLevel, outLevel, rttLevel]);
      WorstOfThree(measured, inLevel, outLevel, rttLevel);
      SidesMakeTheBottleneck(metrics, measured);
      direction := PickDirection(inLevel, outLevel);
      DirectionIsTheWorseSide(inLevel, outLevel);
    }
  }
}

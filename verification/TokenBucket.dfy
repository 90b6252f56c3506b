/** The per-key rate limiter: what one bucket promises, whatever the other keys and the idle sweep do. */
module TokenBuckets {

  datatype Config = Config(rate: real, max: real, interval: real)
  datatype Bucket = Bucket(tokens: real, lastRefill: real)
  type Buckets = map<string, Bucket>

  datatype Event = Call(clientID: string, at: real) | Sweep(at: real)

  // ----- What one call and one sweep do -----

  function Min(a: real, b: real): real { if a <= b then a else b }

  function KeyOf(clientID: string): string { if clientID == "" then "unknown" else clientID }

  /** Tokens of a bucket that held `level` and then waited `wait` seconds. */
  function Refill(cfg: Config, level: real, wait: real): real { Min(level + wait * cfg.rate, cfg.max) }

  function AllowStep(cfg: Config, m: Buckets, clientID: string, now: real): (Buckets, bool) {
    var key := KeyOf(clientID);
    if key !in m then
      (m[key := Bucket(cfg.max - 1.0, now)], true)
    else
      var filled := Refill(cfg, m[key].tokens, now - m[key].lastRefill);
      if filled >= 1.0 then (m[key := Bucket(filled - 1.0, now)], true) else (m[key := Bucket(filled, now)], false)
  }

  predicate Idle(cfg: Config, b: Bucket, now: real) { now - b.lastRefill > cfg.interval }

  function SweepStep(cfg: Config, m: Buckets, now: real): Buckets {
    map k | k in m && !Idle(cfg, m[k], now) :: m[k]
  }

  // ----- Runs -----

  function Step(cfg: Config, m: Buckets, e: Event): Buckets {
    match e
    case Call(id, at) => AllowStep(cfg, m, id, at).0
    case Sweep(at) => SweepStep(cfg, m, at)
  }

  function After(cfg: Config, m: Buckets, es: seq<Event>): Buckets
    decreases es
  {
    if es == [] then m else After(cfg, Step(cfg, m, es[0]), es[1..])
  }

  predicate IsCallOf(e: Event, k: string) { e.Call? && KeyOf(e.clientID) == k }

  /** The answers given to the calls of key k, in order. */
  function Answers(cfg: Config, m: Buckets, k: string, es: seq<Event>): seq<bool>
    decreases es
  {
    if es == [] then []
    else
      var rest := Answers(cfg, Step(cfg, m, es[0]), k, es[1..]);
      if IsCallOf(es[0], k) then [AllowStep(cfg, m, es[0].clientID, es[0].at).1] + rest else rest
  }

  function TimesOf(k: string, es: seq<Event>): seq<real> {
    if es == [] then []
    else (if IsCallOf(es[0], k) then [es[0].at] else []) + TimesOf(k, es[1..])
  }

  function WithoutSweeps(es: seq<Event>): seq<Event> {
    if es == [] then [] else (if es[0].Sweep? then [] else [es[0]]) + WithoutSweeps(es[1..])
  }

  function Granted(answers: seq<bool>): nat {
    if answers == [] then 0 else (if answers[0] then 1 else 0) + Granted(answers[1..])
  }

  /** Times never go backwards, from `now` on. */
  predicate Ordered(now: real, es: seq<Event>)
    decreases es
  {
    es == [] || (now <= es[0].at && Ordered(es[0].at, es[1..]))
  }

  predicate OrderedTimes(now: real, ts: seq<real>)
    decreases ts
  {
    ts == [] || (now <= ts[0] && OrderedTimes(ts[0], ts[1..]))
  }

  function EndTime(now: real, es: seq<Event>): real
    decreases es
  {
    if es == [] then now else EndTime(es[0].at, es[1..])
  }

  // ----- The reference: one bucket of its own, never swept -----

  function Ideal(cfg: Config, level: real, since: real, ts: seq<real>): seq<bool>
    decreases ts
  {
    if ts == [] then []
    else
      var l := Refill(cfg, level, ts[0] - since);
      [l >= 1.0] + Ideal(cfg, if l >= 1.0 then l - 1.0 else l, ts[0], ts[1..])
  }

  function IdealLevel(cfg: Config, level: real, since: real, ts: seq<real>): (real, real)
    decreases ts
  {
    if ts == [] then (level, since)
    else
      var l := Refill(cfg, level, ts[0] - since);
      IdealLevel(cfg, if l >= 1.0 then l - 1.0 else l, ts[0], ts[1..])
  }

  /** What key k could spend at time `now`; an absent bucket counts as full. */
  function Level(cfg: Config, m: Buckets, k: string, now: real): real {
    if k in m then Refill(cfg, m[k].tokens, now - m[k].lastRefill) else cfg.max
  }

  predicate Usable(cfg: Config) { cfg.rate >= 0.0 && cfg.max >= 1.0 && cfg.interval >= 0.0 }

  /** An idle bucket is always a full bucket. */
  predicate SweepSafe(cfg: Config) { cfg.max >= 1.0 && cfg.rate * cfg.interval >= cfg.max }

  predicate NoSweep(es: seq<Event>) { forall e :: e in es ==> e.Call? }

  predicate WellFormed(cfg: Config, m: Buckets, now: real) {
    forall k :: k in m ==> 0.0 <= m[k].tokens <= cfg.max && m[k].lastRefill <= now
  }

  // ----- One step -----

  lemma RefillTwice(cfg: Config, level: real, a: real, b: real)
    requires cfg.rate >= 0.0 && a >= 0.0 && b >= 0.0
    ensures Refill(cfg, Refill(cfg, level, a), b) == Refill(cfg, level, a + b)
  {
    assert (a + b) * cfg.rate == a * cfg.rate + b * cfg.rate;
    assert b * cfg.rate >= 0.0;
  }

  lemma RefillNow(cfg: Config, level: real, now: real)
    requires level <= cfg.max
    ensures Refill(cfg, level, now - now) == level
  {
    assert (now - now) * cfg.rate == 0.0;
  }

  lemma LevelLater(cfg: Config, m: Buckets, k: string, now: real, later: real)
    requires Usable(cfg) && WellFormed(cfg, m, now) && now <= later
    ensures Level(cfg, m, k, later) == Refill(cfg, Level(cfg, m, k, now), later - now)
  {
    ProductNotNegative(later - now, cfg.rate);
    if k in m {
      RefillTwice(cfg, m[k].tokens, now - m[k].lastRefill, later - now);
    }
  }

  lemma LevelInRange(cfg: Config, m: Buckets, k: string, now: real)
    requires Usable(cfg) && WellFormed(cfg, m, now)
    ensures 0.0 <= Level(cfg, m, k, now) <= cfg.max
  {
    if k in m {
      RefillInRange(cfg, m[k].tokens, now - m[k].lastRefill);
    }
  }

  lemma RefillInRange(cfg: Config, level: real, wait: real)
    requires cfg.rate >= 0.0 && wait >= 0.0 && 0.0 <= level <= cfg.max
    ensures level <= Refill(cfg, level, wait) <= cfg.max
  {
    ProductNotNegative(wait, cfg.rate);
  }

  lemma ProductNotNegative(x: real, y: real)
    requires x >= 0.0 && y >= 0.0
    ensures x * y >= 0.0
  {
  }

  lemma SweptWasFull(cfg: Config, m: Buckets, k: string, now: real)
    requires Usable(cfg) && SweepSafe(cfg) && WellFormed(cfg, m, now)
    requires k in m && Idle(cfg, m[k], now)
    ensures Level(cfg, m, k, now) == cfg.max
  {
    var wait := now - m[k].lastRefill;
    ProductNotNegative(wait - cfg.interval, cfg.rate);
    assert wait * cfg.rate == (wait - cfg.interval) * cfg.rate + cfg.interval * cfg.rate;
  }

  /** Every event spends exactly what it answers: one token of its own key, or nothing at all. */
  lemma StepLevel(cfg: Config, m: Buckets, e: Event, now: real, k: string)
    requires Usable(cfg) && WellFormed(cfg, m, now) && now <= e.at
    requires e.Call? || SweepSafe(cfg)
    ensures WellFormed(cfg, Step(cfg, m, e), e.at)
    ensures IsCallOf(e, k) ==> AllowStep(cfg, m, e.clientID, e.at).1 == (Level(cfg, m, k, e.at) >= 1.0)
    ensures Level(cfg, Step(cfg, m, e), k, e.at)
         == Level(cfg, m, k, e.at) - (if IsCallOf(e, k) && Level(cfg, m, k, e.at) >= 1.0 then 1.0 else 0.0)
  {
    LevelInRange(cfg, m, k, e.at);
    var m' := Step(cfg, m, e);
    if e.Call? {
      LevelInRange(cfg, m, KeyOf(e.clientID), e.at);
      if k == KeyOf(e.clientID) {
        var l := Level(cfg, m, k, e.at);
        assert m'[k] == Bucket(if l >= 1.0 then l - 1.0 else l, e.at);
        RefillNow(cfg, m'[k].tokens, e.at);
      } else {
        assert k in m' <==> k in m;
        assert k in m ==> m'[k] == m[k];
      }
    } else if k in m && Idle(cfg, m[k], e.at) {
      SweptWasFull(cfg, m, k, e.at);
    }
  }

  // ----- Sweeps and other keys are invisible -----

  lemma {:induction false} Simulates(cfg: Config, m: Buckets, k: string, es: seq<Event>,
                                     now: real, level: real, since: real)
    requires Usable(cfg) && WellFormed(cfg, m, now) && Ordered(now, es) && since <= now
    requires SweepSafe(cfg) || NoSweep(es)
    requires Level(cfg, m, k, now) == Refill(cfg, level, now - since)
    ensures Answers(cfg, m, k, es) == Ideal(cfg, level, since, TimesOf(k, es))
    decreases es
  {
    if es != [] {
      var e := es[0];
      assert e in es;
      StepLevel(cfg, m, e, now, k);
      LevelLater(cfg, m, k, now, e.at);
      RefillTwice(cfg, level, now - since, e.at - now);
      var l := Refill(cfg, level, e.at - since);
      LevelInRange(cfg, m, k, e.at);
      assert Level(cfg, m, k, e.at) == l;
      if IsCallOf(e, k) {
        Simulates(cfg, Step(cfg, m, e), k, es[1..], e.at, if l >= 1.0 then l - 1.0 else l, e.at);
        assert TimesOf(k, es) == [e.at] + TimesOf(k, es[1..]);
      } else {
        Simulates(cfg, Step(cfg, m, e), k, es[1..], e.at, level, since);
        assert TimesOf(k, es) == TimesOf(k, es[1..]);
      }
    }
  }

  /** When the key was called last. */
  function LastCall(k: string, es: seq<Event>): real {
    if es == [] then 0.0
    else if IsCallOf(es[|es|-1], k) then es[|es|-1].at
    else LastCall(k, es[..|es|-1])
  }

  /** The key has been called, and no sweep has come later than the interval after its last call. */
  predicate Remembered(cfg: Config, k: string, es: seq<Event>) {
    es != [] &&
    var before, e := es[..|es|-1], es[|es|-1];
    IsCallOf(e, k) || (Remembered(cfg, k, before) && (e.Sweep? ==> e.at <= LastCall(k, before) + cfg.interval))
  }

  lemma {:induction false} AfterLast(cfg: Config, m: Buckets, es: seq<Event>)
    requires es != []
    ensures After(cfg, m, es) == Step(cfg, After(cfg, m, es[..|es|-1]), es[|es|-1])
    decreases |es|
  {
    if |es| > 1 {
      AfterLast(cfg, Step(cfg, m, es[0]), es[1..]);
      assert es[1..][..|es|-2] == es[..|es|-1][1..];
    }
  }

  /** After any events a key has a bucket, last refilled when the key was last called, if and only if no sweep has come
      later than the interval after that call. */
  lemma {:induction false} BucketIsKeptIff(cfg: Config, k: string, es: seq<Event>)
    ensures var m := After(cfg, map[], es);
            (k in m <==> Remembered(cfg, k, es)) && (k in m ==> m[k].lastRefill == LastCall(k, es))
    decreases |es|
  {
    if es != [] {
      BucketIsKeptIff(cfg, k, es[..|es|-1]);
      AfterLast(cfg, map[], es);
    }
  }

  /** Clients have buckets of their own, but for those that could not be told, who share one with a client of the name
      "unknown". */
  lemma BucketIsSharedIff(a: string, b: string)
    ensures KeyOf(a) == KeyOf(b) <==> a == b || (a in {"", "unknown"} && b in {"", "unknown"})
    ensures a != "" ==> KeyOf(a) == a
  {
    if KeyOf(a) == KeyOf(b) && a != b {
      assert a == "" || b == "";
    }
  }

  /** Whatever other clients and the sweeper do, key k is answered as if it owned a private bucket. */
  lemma KeysAreIndependent(cfg: Config, k: string, es: seq<Event>, start: real)
    requires Usable(cfg) && Ordered(start, es) && (SweepSafe(cfg) || NoSweep(es))
    ensures Answers(cfg, map[], k, es) == Ideal(cfg, cfg.max, start, TimesOf(k, es))
  {
    Simulates(cfg, map[], k, es, start, cfg.max, start);
  }

  lemma {:induction false} WithoutSweepsIsARun(es: seq<Event>, now: real, k: string)
    requires Ordered(now, es)
    ensures Ordered(now, WithoutSweeps(es)) && NoSweep(WithoutSweeps(es))
    ensures TimesOf(k, WithoutSweeps(es)) == TimesOf(k, es)
    decreases es
  {
    if es != [] {
      var rest := WithoutSweeps(es[1..]);
      WithoutSweepsIsARun(es[1..], es[0].at, k);
      if es[0].Sweep? {
        assert WithoutSweeps(es) == rest && TimesOf(k, es) == TimesOf(k, es[1..]);
        OrderedEarlier(rest, es[0].at, now);
      } else {
        assert WithoutSweeps(es) == [es[0]] + rest;
      }
    }
  }

  lemma OrderedEarlier(es: seq<Event>, now: real, earlier: real)
    requires earlier <= now && Ordered(now, es)
    ensures Ordered(earlier, es)
  {
  }

  predicate SameUnswept(cfg: Config, k: string, es: seq<Event>) {
    Answers(cfg, map[], k, es) == Answers(cfg, map[], k, WithoutSweeps(es))
  }

  ghost predicate SweepsInvisible(cfg: Config) {
    forall k: string, es: seq<Event>, start: real :: Ordered(start, es) ==> SameUnswept(cfg, k, es)
  }

  lemma SafeSweepsAreInvisible(cfg: Config)
    requires cfg.rate >= 0.0 && cfg.interval >= 0.0 && SweepSafe(cfg)
    ensures SweepsInvisible(cfg)
  {
    forall k: string, es: seq<Event>, start: real | Ordered(start, es)
      ensures SameUnswept(cfg, k, es)
    {
      WithoutSweepsIsARun(es, start, k);
      KeysAreIndependent(cfg, k, es, start);
      KeysAreIndependent(cfg, k, WithoutSweeps(es), start);
    }
  }

  // ----- and visible in every other configuration -----

  /** Two different levels of the same bucket are told apart by some later calls. */
  lemma {:induction false} Distinguish(cfg: Config, a: real, b: real, t: real) returns (ts: seq<real>)
    requires Usable(cfg) && 0.0 <= a < b <= cfg.max
    requires cfg.rate > 0.0 || a < 1.0 <= b
    ensures OrderedTimes(t, ts)
    ensures Ideal(cfg, a, t, ts) != Ideal(cfg, b, t, ts)
    decreases a.Floor
  {
    if a >= 1.0 {
      var rest := Distinguish(cfg, a - 1.0, b - 1.0, t);
      ts := [t] + rest;
      assert ts[1..] == rest;
      assert Refill(cfg, a, t - t) == a && Refill(cfg, b, t - t) == b;
      assert Ideal(cfg, a, t, ts)[1..] != Ideal(cfg, b, t, ts)[1..];
    } else if b >= 1.0 {
      ts := [t];
      assert Refill(cfg, a, t - t) == a && Refill(cfg, b, t - t) == b;
      assert Ideal(cfg, a, t, ts)[0] != Ideal(cfg, b, t, ts)[0];
    } else {
      var wait := (1.0 - b) / cfg.rate;
      assert wait * cfg.rate == 1.0 - b;
      ts := [t + wait];
      assert ts[0] - t == wait;
      assert Ideal(cfg, a, t, ts)[0] != Ideal(cfg, b, t, ts)[0];
    }
  }

  /** Some calls bring a bucket down without a token going to waste: to exactly 0 when it refills, to below 1 when it
      does not. */
  lemma {:induction false} Drain(cfg: Config, level: real, t: real) returns (ts: seq<real>)
    requires Usable(cfg) && 0.0 <= level <= cfg.max
    ensures OrderedTimes(t, ts) && t <= IdealLevel(cfg, level, t, ts).1 && (level >= 1.0 ==> ts != [])
    ensures cfg.rate > 0.0 ==> IdealLevel(cfg, level, t, ts).0 == 0.0
    ensures cfg.rate == 0.0 ==> 0.0 <= IdealLevel(cfg, level, t, ts).0 < 1.0
    ensures var (low, end) := IdealLevel(cfg, level, t, ts);
            Granted(Ideal(cfg, level, t, ts)) as real == level + GainedBy(cfg, end - t) - low
    decreases level.Floor
  {
    if level >= 1.0 {
      var rest := Drain(cfg, level - 1.0, t);
      ts := [t] + rest;
      assert ts[1..] == rest && Refill(cfg, level, t - t) == level;
    } else if cfg.rate > 0.0 {
      var wait := (1.0 - level) / cfg.rate;
      assert wait * cfg.rate == 1.0 - level && wait > 0.0;
      ts := [t + wait];
      assert ts[0] - t == wait && ts[1..] == [];
      assert Refill(cfg, level, wait) == 1.0;
    } else {
      ts := [];
    }
  }

  function CallsAt(ts: seq<real>): seq<Event> {
    if ts == [] then [] else [Call("a", ts[0])] + CallsAt(ts[1..])
  }

  lemma {:induction false} CallsAtIsARun(now: real, ts: seq<real>)
    requires OrderedTimes(now, ts)
    ensures NoSweep(CallsAt(ts)) && Ordered(now, CallsAt(ts)) && TimesOf("a", CallsAt(ts)) == ts
    ensures WithoutSweeps(CallsAt(ts)) == CallsAt(ts)
    decreases ts
  {
    if ts != [] {
      CallsAtIsARun(ts[0], ts[1..]);
    }
  }

  lemma {:induction false} RunSplit(cfg: Config, m: Buckets, k: string, es: seq<Event>, fs: seq<Event>)
    ensures Answers(cfg, m, k, es + fs) == Answers(cfg, m, k, es) + Answers(cfg, After(cfg, m, es), k, fs)
    decreases es
  {
    if es == [] {
      assert es + fs == fs;
    } else {
      FirstOf(es, fs);
      var m' := Step(cfg, m, es[0]);
      RunSplit(cfg, m', k, es[1..], fs);
      Regroup(if IsCallOf(es[0], k) then [AllowStep(cfg, m, es[0].clientID, es[0].at).1] else [],
              Answers(cfg, m', k, es[1..]), Answers(cfg, After(cfg, m, es), k, fs));
    }
  }

  lemma FirstOf(es: seq<Event>, fs: seq<Event>)
    requires es != []
    ensures es + fs != [] && (es + fs)[0] == es[0] && (es + fs)[1..] == es[1..] + fs
  {
  }

  lemma Regroup<T>(a: seq<T>, b: seq<T>, c: seq<T>)
    ensures a + (b + c) == (a + b) + c
  {
  }

  lemma {:induction false} SweepsSplit(es: seq<Event>, fs: seq<Event>)
    ensures WithoutSweeps(es + fs) == WithoutSweeps(es) + WithoutSweeps(fs)
    decreases es
  {
    if es == [] {
      assert es + fs == fs;
    } else {
      FirstOf(es, fs);
      SweepsSplit(es[1..], fs);
      Regroup(if es[0].Sweep? then [] else [es[0]], WithoutSweeps(es[1..]), WithoutSweeps(fs));
    }
  }

  lemma {:induction false} OrderedSplit(now: real, es: seq<Event>, fs: seq<Event>)
    requires Ordered(now, es) && Ordered(EndTime(now, es), fs)
    ensures Ordered(now, es + fs)
    decreases es
  {
    if es == [] {
      assert es + fs == fs;
    } else {
      assert (es + fs)[0] == es[0] && (es + fs)[1..] == es[1..] + fs;
      OrderedSplit(es[0].at, es[1..], fs);
    }
  }

  lemma FirstCall(cfg: Config, m: Buckets, now: real, level: real, at: real)
    requires Usable(cfg) && now <= at && 0.0 <= level <= cfg.max
    requires m == map["a" := Bucket(level, now)] || (m == map[] && level == cfg.max)
    ensures var l := Refill(cfg, level, at - now);
            && 0.0 <= l <= cfg.max
            && Step(cfg, m, Call("a", at)) == map["a" := Bucket(if l >= 1.0 then l - 1.0 else l, at)]
  {
    RefillInRange(cfg, level, at - now);
  }

  /** After calls of one key only, its bucket is the ideal bucket and no other bucket exists. */
  lemma {:induction false} AfterCalls(cfg: Config, m: Buckets, now: real, level: real, ts: seq<real>)
    requires Usable(cfg) && OrderedTimes(now, ts)
    requires m == map["a" := Bucket(level, now)] || (m == map[] && level == cfg.max)
    requires 0.0 <= level <= cfg.max
    ensures var (l, since) := IdealLevel(cfg, level, now, ts);
            && now <= since && since == EndTime(now, CallsAt(ts)) && 0.0 <= l <= cfg.max
            && (ts == [] ==> After(cfg, m, CallsAt(ts)) == m)
            && (ts != [] ==> After(cfg, m, CallsAt(ts)) == map["a" := Bucket(l, since)])
    decreases ts
  {
    if ts != [] {
      var l := Refill(cfg, level, ts[0] - now);
      var m' := Step(cfg, m, Call("a", ts[0]));
      FirstCall(cfg, m, now, level, ts[0]);
      assert CallsAt(ts)[1..] == CallsAt(ts[1..]);
      AfterCalls(cfg, m', ts[0], if l >= 1.0 then l - 1.0 else l, ts[1..]);
    }
  }

  /** The pause after which a drained bucket is already swept but not yet full. */
  function TellingPause(cfg: Config): real
    requires Usable(cfg) && cfg.rate * cfg.interval < cfg.max
  {
    if cfg.rate == 0.0 then cfg.interval + 1.0 else (cfg.interval + cfg.max / cfg.rate) / 2.0
  }

  lemma PauseTells(cfg: Config)
    requires Usable(cfg) && cfg.rate * cfg.interval < cfg.max
    ensures TellingPause(cfg) > cfg.interval
    ensures cfg.rate > 0.0 ==> 0.0 <= TellingPause(cfg) * cfg.rate < cfg.max
  {
    if cfg.rate > 0.0 {
      var full := cfg.max / cfg.rate;
      assert full * cfg.rate == cfg.max;
      assert (full - cfg.interval) * cfg.rate > 0.0;
      assert full > cfg.interval;
      var p := TellingPause(cfg);
      assert (full - p) * cfg.rate > 0.0;
      assert p * cfg.rate >= 0.0;
    }
  }

  /** Drained, then swept early, then probed: the sweep has refilled the bucket and the answers show it. */
  lemma EarlySweepTells(cfg: Config, low: real, since: real) returns (later: real, probe: seq<real>)
    requires Usable(cfg) && cfg.rate * cfg.interval < cfg.max
    requires 0.0 <= low && (if cfg.rate > 0.0 then low == 0.0 else low < 1.0)
    ensures since < later && OrderedTimes(later, probe)
    ensures var state := map["a" := Bucket(low, since)];
            && SweepStep(cfg, state, later) == map[]
            && Answers(cfg, state, "a", CallsAt(probe)) != Answers(cfg, map[], "a", CallsAt(probe))
  {
    PauseTells(cfg);
    later := since + TellingPause(cfg);
    assert later - since == TellingPause(cfg);
    var level := Refill(cfg, low, later - since);
    PauseDoesNotFill(cfg, low);
    probe := Distinguish(cfg, level, cfg.max, later);
    AnswersTell(cfg, low, since, later, probe);
  }

  lemma PauseDoesNotFill(cfg: Config, low: real)
    requires Usable(cfg) && cfg.rate * cfg.interval < cfg.max
    requires 0.0 <= low && (if cfg.rate > 0.0 then low == 0.0 else low < 1.0)
    ensures 0.0 <= Refill(cfg, low, TellingPause(cfg)) < cfg.max
    ensures cfg.rate == 0.0 ==> Refill(cfg, low, TellingPause(cfg)) < 1.0
  {
    PauseTells(cfg);
  }

  lemma AnswersTell(cfg: Config, low: real, since: real, later: real, probe: seq<real>)
    requires Usable(cfg) && since < later && OrderedTimes(later, probe) && 0.0 <= low <= cfg.max
    requires Ideal(cfg, Refill(cfg, low, later - since), later, probe) != Ideal(cfg, cfg.max, later, probe)
    ensures var drained := map["a" := Bucket(low, since)];
            Answers(cfg, drained, "a", CallsAt(probe)) != Answers(cfg, map[], "a", CallsAt(probe))
  {
    var level := Refill(cfg, low, later - since);
    CallsAtIsARun(later, probe);
    RefillNow(cfg, level, later);
    RefillNow(cfg, cfg.max, later);
    Simulates(cfg, map[], "a", CallsAt(probe), later, cfg.max, later);
    Simulates(cfg, map["a" := Bucket(low, since)], "a", CallsAt(probe), later, level, later);
  }

  lemma UnsafeSweepShows(cfg: Config)
    requires Usable(cfg) && cfg.rate * cfg.interval < cfg.max
    ensures !SweepsInvisible(cfg)
  {
    var drain := Drain(cfg, cfg.max, 0.0);
    var before := CallsAt(drain);
    var (low, since) := IdealLevel(cfg, cfg.max, 0.0, drain);
    CallsAtIsARun(0.0, drain);
    AfterCalls(cfg, map[], 0.0, cfg.max, drain);
    assert drain != [];
    var state := map["a" := Bucket(low, since)];

    var later, probe := EarlySweepTells(cfg, low, since);
    var after := CallsAt(probe);
    CallsAtIsARun(later, probe);
    SweepBetween(before, later, after);
    SweptAnswersDiffer(cfg, state, before, later, after);
  }

  /** A sweep that empties the limiter shows in the answers to later calls that would tell. */
  lemma SweptAnswersDiffer(cfg: Config, state: Buckets, before: seq<Event>, later: real, after: seq<Event>)
    requires After(cfg, map[], before) == state && SweepStep(cfg, state, later) == map[]
    requires Answers(cfg, state, "a", after) != Answers(cfg, map[], "a", after)
    requires WithoutSweeps(before + ([Sweep(later)] + after)) == before + after
    requires Ordered(0.0, before + ([Sweep(later)] + after))
    ensures !SweepsInvisible(cfg)
  {
    RunSplit(cfg, map[], "a", before, [Sweep(later)] + after);
    RunSplit(cfg, map[], "a", before, after);
    assert ([Sweep(later)] + after)[1..] == after;
    assert Step(cfg, state, Sweep(later)) == map[];
    assert Answers(cfg, state, "a", [Sweep(later)] + after) == Answers(cfg, map[], "a", after);
    var common := Answers(cfg, map[], "a", before);
    var swept, unswept := Answers(cfg, map[], "a", after), Answers(cfg, state, "a", after);
    assert (common + swept)[|common|..] == swept && (common + unswept)[|common|..] == unswept;
    assert !SameUnswept(cfg, "a", before + ([Sweep(later)] + after));
  }

  lemma SweepBetween(before: seq<Event>, later: real, after: seq<Event>)
    requires Ordered(0.0, before) && EndTime(0.0, before) <= later && Ordered(later, after)
    requires WithoutSweeps(before) == before && WithoutSweeps(after) == after
    ensures Ordered(0.0, before + ([Sweep(later)] + after))
    ensures WithoutSweeps(before + ([Sweep(later)] + after)) == before + after
  {
    assert ([Sweep(later)] + after)[1..] == after;
    OrderedSplit(0.0, before, [Sweep(later)] + after);
    SweepsSplit(before, [Sweep(later)] + after);
    assert WithoutSweeps([Sweep(later)] + after) == after;
  }

  /** A limiter with less than one token of capacity lets one call through and then none, until it is swept. */
  lemma TinyBucketSweepShows(cfg: Config)
    requires cfg.rate >= 0.0 && cfg.interval >= 0.0 && cfg.max < 1.0
    ensures !SweepsInvisible(cfg)
  {
    var t := cfg.interval + 1.0;
    var first, sweep, second := Call("a", 0.0), Sweep(t), Call("a", t);
    var es := [first, sweep, second];
    assert es[1..] == [sweep, second] && [sweep, second][1..] == [second];
    assert [second][1..] == [];
    assert WithoutSweeps([second]) == [second] && WithoutSweeps([sweep, second]) == [second];
    assert WithoutSweeps(es) == [first, second];
    assert [first, second][1..] == [second];
    var m := map["a" := Bucket(cfg.max - 1.0, 0.0)];
    assert Step(cfg, map[], first) == m;
    assert Step(cfg, m, sweep) == map[];
    assert AllowStep(cfg, map[], "a", t).1 && !AllowStep(cfg, m, "a", t).1;
    assert Answers(cfg, map[], "a", [second]) == [true] && Answers(cfg, m, "a", [second]) == [false];
    assert Answers(cfg, m, "a", [sweep, second]) == [true];
    assert Answers(cfg, map[], "a", es) == [true] + [true];
    assert Answers(cfg, map[], "a", [first, second]) == [true] + [false];
    assert ([true] + [true])[1] != ([true] + [false])[1];
    assert !SameUnswept(cfg, "a", es);
    assert Ordered(t, []) && Ordered(t, [second]);
    assert Ordered(t, [sweep, second]);
    assert Ordered(first.at, es[1..]) by { OrderedEarlier(es[1..], t, 0.0); }
    assert Ordered(0.0, es);
  }

  /** Sweeping never changes an answer exactly when every idle bucket is a full one. */
  lemma SweepsInvisibleIff(cfg: Config)
    requires cfg.rate >= 0.0 && cfg.interval >= 0.0
    ensures SweepsInvisible(cfg) <==> SweepSafe(cfg)
  {
    if SweepSafe(cfg) {
      SafeSweepsAreInvisible(cfg);
    } else if cfg.max < 1.0 {
      TinyBucketSweepShows(cfg);
    } else {
      UnsafeSweepShows(cfg);
    }
  }

  // ----- The rate bound -----

  lemma GrantedNext(cfg: Config, m: Buckets, k: string, es: seq<Event>)
    requires es != []
    ensures Granted(Answers(cfg, m, k, es)) == Granted(Answers(cfg, Step(cfg, m, es[0]), k, es[1..]))
         + (if IsCallOf(es[0], k) && AllowStep(cfg, m, es[0].clientID, es[0].at).1 then 1 else 0)
  {
    var rest := Answers(cfg, Step(cfg, m, es[0]), k, es[1..]);
    if IsCallOf(es[0], k) {
      assert ([AllowStep(cfg, m, es[0].clientID, es[0].at).1] + rest)[1..] == rest;
    }
  }

  lemma SpendOnce(cfg: Config, m: Buckets, e: Event, now: real, k: string)
    requires Usable(cfg) && SweepSafe(cfg) && WellFormed(cfg, m, now) && now <= e.at
    ensures WellFormed(cfg, Step(cfg, m, e), e.at)
    ensures Level(cfg, Step(cfg, m, e), k, e.at)
          + (if IsCallOf(e, k) && AllowStep(cfg, m, e.clientID, e.at).1 then 1.0 else 0.0)
         <= Level(cfg, m, k, now) + GainedBy(cfg, e.at - now)
  {
    StepLevel(cfg, m, e, now, k);
    LevelLater(cfg, m, k, now, e.at);
    RefillAtMost(cfg, Level(cfg, m, k, now), e.at - now);
  }

  lemma RefillAtMost(cfg: Config, level: real, wait: real)
    ensures Refill(cfg, level, wait) <= level + GainedBy(cfg, wait)
  {
  }

  lemma {:induction false} RunStaysWellFormed(cfg: Config, m: Buckets, es: seq<Event>, now: real)
    requires Usable(cfg) && SweepSafe(cfg) && WellFormed(cfg, m, now) && Ordered(now, es)
    ensures now <= EndTime(now, es) && WellFormed(cfg, After(cfg, m, es), EndTime(now, es))
    decreases es
  {
    if es != [] {
      StepLevel(cfg, m, es[0], now, "a");
      RunStaysWellFormed(cfg, Step(cfg, m, es[0]), es[1..], es[0].at);
    }
  }

  /** What a bucket that never overflows would gain over the run. */
  ghost function Gained(cfg: Config, now: real, es: seq<Event>): real
    decreases es
  {
    if es == [] then 0.0 else GainedBy(cfg, es[0].at - now) + Gained(cfg, es[0].at, es[1..])
  }

  ghost function GainedBy(cfg: Config, wait: real): real { wait * cfg.rate }

  lemma {:induction false} GainedInAll(cfg: Config, now: real, es: seq<Event>)
    ensures Gained(cfg, now, es) == (EndTime(now, es) - now) * cfg.rate
    decreases es
  {
    if es != [] {
      GainedInAll(cfg, es[0].at, es[1..]);
    }
  }

  lemma {:induction false} SpendingIsBounded(cfg: Config, m: Buckets, k: string, es: seq<Event>, now: real)
    requires Usable(cfg) && SweepSafe(cfg) && WellFormed(cfg, m, now) && Ordered(now, es)
    ensures Granted(Answers(cfg, m, k, es)) as real <= Level(cfg, m, k, now) + Gained(cfg, now, es)
    decreases es
  {
    if es == [] {
      LevelInRange(cfg, m, k, now);
    } else {
      var e := es[0];
      var m' := Step(cfg, m, e);
      SpendOnce(cfg, m, e, now, k);
      SpendingIsBounded(cfg, m', k, es[1..], e.at);
      GrantedNext(cfg, m, k, es);
      AddUp(Granted(Answers(cfg, m', k, es[1..])),
            if IsCallOf(e, k) && AllowStep(cfg, m, e.clientID, e.at).1 then 1 else 0,
            Level(cfg, m, k, now), Level(cfg, m', k, e.at), GainedBy(cfg, e.at - now), Gained(cfg, e.at, es[1..]));
    }
  }

  lemma AddUp(later: nat, spent: nat, before: real, after: real, gain: real, laterGain: real)
    requires after + spent as real <= before + gain && later as real <= after + laterGain
    ensures (spent + later) as real <= before + (gain + laterGain)
  {
  }

  /** In any stretch of any run, starting with an event at time `t`, no key is granted more than a full
      bucket plus what refills during the stretch. */
  lemma RateBound(cfg: Config, k: string, history: seq<Event>, window: seq<Event>, start: real, t: real)
    requires Usable(cfg) && SweepSafe(cfg)
    requires Ordered(start, history) && EndTime(start, history) <= t && Ordered(t, window)
    ensures Granted(Answers(cfg, After(cfg, map[], history), k, window)) as real
         <= cfg.max + (EndTime(t, window) - t) * cfg.rate
  {
    RunStaysWellFormed(cfg, map[], history, start);
    var m := After(cfg, map[], history);
    LevelInRange(cfg, m, k, t);
    SpendingIsBounded(cfg, m, k, window, t);
    GainedInAll(cfg, t, window);
  }

  predicate WithinRate(cfg: Config, k: string, history: seq<Event>, window: seq<Event>, t: real) {
    Granted(Answers(cfg, After(cfg, map[], history), k, window)) as real
      <= cfg.max + (EndTime(t, window) - t) * cfg.rate
  }

  ghost predicate RateLimited(cfg: Config) {
    forall k: string, history: seq<Event>, window: seq<Event>, start: real, t: real ::
      Ordered(start, history) && EndTime(start, history) <= t && Ordered(t, window) ==>
        WithinRate(cfg, k, history, window, t)
  }

  lemma {:induction false} GrantedSplit(a: seq<bool>, b: seq<bool>)
    ensures Granted(a + b) == Granted(a) + Granted(b)
    decreases a
  {
    if a == [] {
      assert a + b == b;
    } else {
      assert (a + b)[0] == a[0] && (a + b)[1..] == a[1..] + b;
      GrantedSplit(a[1..], b);
    }
  }

  lemma {:induction false} EndTimeSplit(now: real, es: seq<Event>, fs: seq<Event>)
    ensures EndTime(now, es + fs) == EndTime(EndTime(now, es), fs)
    decreases es
  {
    if es == [] {
      assert es + fs == fs;
    } else {
      FirstOf(es, fs);
      EndTimeSplit(es[0].at, es[1..], fs);
    }
  }

  /** These calls, from a full bucket at time `t`, empty it without wasting a token. */
  ghost predicate Drained(cfg: Config, t: real, ts: seq<real>) {
    var (low, end) := IdealLevel(cfg, cfg.max, t, ts);
    && (if cfg.rate > 0.0 then low == 0.0 else low < 1.0)
    && Granted(Ideal(cfg, cfg.max, t, ts)) as real == cfg.max + GainedBy(cfg, end - t) - low
  }

  /** Drained from full, swept, and drained from full again. */
  lemma DrainedTwice(cfg: Config, drain: seq<real>, later: real, again: seq<real>)
    requires Usable(cfg) && OrderedTimes(0.0, drain) && drain != [] && OrderedTimes(later, again)
    requires later - IdealLevel(cfg, cfg.max, 0.0, drain).1 > cfg.interval
    ensures var es := CallsAt(drain) + ([Sweep(later)] + CallsAt(again));
            && Ordered(0.0, es) && EndTime(0.0, es) == IdealLevel(cfg, cfg.max, later, again).1
            && Granted(Answers(cfg, map[], "a", es))
               == Granted(Ideal(cfg, cfg.max, 0.0, drain)) + Granted(Ideal(cfg, cfg.max, later, again))
  {
    var before, after := CallsAt(drain), CallsAt(again);
    var rest := [Sweep(later)] + after;
    var (low, since) := IdealLevel(cfg, cfg.max, 0.0, drain);
    CallsAtIsARun(0.0, drain);
    CallsAtIsARun(later, again);
    AfterCalls(cfg, map[], 0.0, cfg.max, drain);
    AfterCalls(cfg, map[], later, cfg.max, again);
    assert rest[1..] == after;
    OrderedSplit(0.0, before, rest);
    EndTimeSplit(0.0, before, rest);
    var state := map["a" := Bucket(low, since)];
    assert Step(cfg, state, Sweep(later)) == map[];
    assert Answers(cfg, state, "a", rest) == Answers(cfg, map[], "a", after);
    RunSplit(cfg, map[], "a", before, rest);
    GrantedSplit(Answers(cfg, map[], "a", before), Answers(cfg, map[], "a", after));
    Simulates(cfg, map[], "a", before, 0.0, cfg.max, 0.0);
    Simulates(cfg, map[], "a", after, later, cfg.max, later);
  }

  /** A sweep that comes before the bucket is full hands out more than the rate allows. */
  lemma UnsafeSweepOvergrants(cfg: Config)
    requires Usable(cfg) && cfg.rate * cfg.interval < cfg.max
    ensures !RateLimited(cfg)
  {
    var drain := Drain(cfg, cfg.max, 0.0);
    var since := IdealLevel(cfg, cfg.max, 0.0, drain).1;
    var again := Drain(cfg, cfg.max, since + TellingPause(cfg));
    PauseTells(cfg);
    Overgranting(cfg, drain, since + TellingPause(cfg), again);
  }

  lemma Overgranting(cfg: Config, drain: seq<real>, later: real, again: seq<real>)
    requires Usable(cfg) && cfg.rate * cfg.interval < cfg.max && TellingPause(cfg) > cfg.interval
    requires OrderedTimes(0.0, drain) && drain != [] && OrderedTimes(later, again)
    requires later == IdealLevel(cfg, cfg.max, 0.0, drain).1 + TellingPause(cfg)
    requires Drained(cfg, 0.0, drain) && Drained(cfg, later, again)
    ensures !RateLimited(cfg)
  {
    DrainedTwice(cfg, drain, later, again);
    TooMany(cfg, Granted(Ideal(cfg, cfg.max, 0.0, drain)), Granted(Ideal(cfg, cfg.max, later, again)),
            IdealLevel(cfg, cfg.max, 0.0, drain), later, IdealLevel(cfg, cfg.max, later, again));
    Overgranted(cfg, CallsAt(drain) + ([Sweep(later)] + CallsAt(again)));
  }

  lemma Overgranted(cfg: Config, es: seq<Event>)
    requires Ordered(0.0, es)
    requires Granted(Answers(cfg, map[], "a", es)) as real > cfg.max + GainedBy(cfg, EndTime(0.0, es))
    ensures !RateLimited(cfg)
  {
    assert After(cfg, map[], []) == map[];
    assert !WithinRate(cfg, "a", [], es, 0.0);
    assert Ordered(0.0, []) && EndTime(0.0, []) <= 0.0;
  }

  lemma TooMany(cfg: Config, first: nat, second: nat, drained: (real, real), later: real, again: (real, real))
    requires Usable(cfg) && cfg.rate * cfg.interval < cfg.max && later == drained.1 + TellingPause(cfg)
    requires first as real == cfg.max + GainedBy(cfg, drained.1 - 0.0) - drained.0
    requires second as real == cfg.max + GainedBy(cfg, again.1 - later) - again.0
    requires if cfg.rate > 0.0 then drained.0 == 0.0 && again.0 == 0.0 else drained.0 < 1.0 && again.0 < 1.0
    ensures (first + second) as real > cfg.max + GainedBy(cfg, again.1)
  {
    PauseTells(cfg);
    var pause := TellingPause(cfg);
    assert drained.1 * cfg.rate + (again.1 - later) * cfg.rate == again.1 * cfg.rate - pause * cfg.rate;
    if cfg.rate == 0.0 {
      assert second > 0;
    }
  }

  /** The limiter keeps its rate in every run exactly when every idle bucket is a full one. */
  lemma RateLimitedIff(cfg: Config)
    requires cfg.rate >= 0.0 && cfg.interval >= 0.0
    ensures RateLimited(cfg) <==> SweepSafe(cfg)
  {
    if SweepSafe(cfg) {
      forall k: string, history: seq<Event>, window: seq<Event>, start: real, t: real
        | Ordered(start, history) && EndTime(start, history) <= t && Ordered(t, window)
        ensures WithinRate(cfg, k, history, window, t)
      {
        RateBound(cfg, k, history, window, start, t);
      }
    } else if cfg.max < 1.0 {
      TinyBucketOvergrants(cfg);
    } else {
      UnsafeSweepOvergrants(cfg);
    }
  }

  /** The first call is let through whatever the capacity. */
  lemma TinyBucketOvergrants(cfg: Config)
    requires cfg.max < 1.0
    ensures !RateLimited(cfg)
  {
    var window := [Call("a", 0.0)];
    assert window[1..] == [];
    assert Answers(cfg, map[], "a", window) == [true];
    assert Granted([true]) == 1;
    assert EndTime(0.0, window) == 0.0 && Ordered(0.0, window);
    Overgranted(cfg, window);
  }

  // ----- The limiter object -----

  class BucketState {
    var tokens: real
    var lastRefill: real

    constructor (tokens: real, lastRefill: real)
      ensures this.tokens == tokens && this.lastRefill == lastRefill
    {
      this.tokens, this.lastRefill := tokens, lastRefill;
    }
  }

  class TokenBucket {
    const cfg: Config
    var tokens: map<string, BucketState>

    /** No two keys share a bucket. */
    ghost predicate Valid()
      reads this
    {
      forall j, k :: j in tokens && k in tokens && j != k ==> tokens[j] != tokens[k]
    }

    ghost function View(): Buckets
      reads this, tokens.Values
    {
      map k | k in tokens :: Bucket(tokens[k].tokens, tokens[k].lastRefill)
    }

    constructor (tokensPerSecond: real, maxTokens: real)
      ensures Valid() && View() == map[]
      ensures cfg == Config(tokensPerSecond, maxTokens, 300.0)
    {
      cfg := Config(tokensPerSecond, maxTokens, 300.0);
      tokens := map[];
    }

    method Allow(clientID: string, now: real) returns (ok: bool)
      requires Valid()
      modifies this, tokens.Values
      ensures Valid() && fresh(tokens.Values - old(tokens.Values))
      ensures (View(), ok) == AllowStep(cfg, old(View()), clientID, now)
    {
      var key := if clientID == "" then "unknown" else clientID;
      if key !in tokens {
        var bucket := new BucketState(cfg.max - 1.0, now);
        tokens := tokens[key := bucket];
        assert View() == old(View())[key := Bucket(cfg.max - 1.0, now)];
        return true;
      }
      var bucket := tokens[key];
      assert bucket in tokens.Values;
      ghost var was := View()[key];
      var elapsed := now - bucket.lastRefill;
      bucket.tokens := Refill(cfg, bucket.tokens, elapsed);
      assert bucket.tokens == Refill(cfg, was.tokens, now - was.lastRefill);
      bucket.lastRefill := now;
      ok := bucket.tokens >= 1.0;
      if ok {
        bucket.tokens := bucket.tokens - 1.0;
      }
      OnlyBucketChanged(key);
    }

    twostate lemma OnlyBucketChanged(key: string)
      requires old(Valid()) && tokens == old(tokens) && key in tokens
      requires forall k :: k in tokens && k != key ==> unchanged(tokens[k])
      ensures View() == old(View())[key := Bucket(tokens[key].tokens, tokens[key].lastRefill)]
    {
    }

    /** One tick of the background sweep. */
    method Cleanup(now: real)
      requires Valid()
      modifies this
      ensures Valid() && tokens.Values <= old(tokens.Values)
      ensures View() == SweepStep(cfg, old(View()), now)
    {
      var todo := tokens.Keys;
      ghost var was := tokens;
      while todo != {}
        invariant todo <= was.Keys && todo <= tokens.Keys
        invariant forall k :: k in tokens ==> k in was && tokens[k] == was[k]
        invariant forall k :: k in was && k !in todo ==> (k in tokens <==> !(now - was[k].lastRefill > cfg.interval))
        decreases |todo|
      {
        var key :| key in todo;
        if now - tokens[key].lastRefill > cfg.interval {
          tokens := tokens - {key};
        }
        todo := todo - {key};
      }
      OnlyIdleRemoved(now);
    }

    twostate lemma OnlyIdleRemoved(now: real)
      requires old(Valid()) && forall k :: k in old(tokens) ==> unchanged(old(tokens)[k])
      requires forall k :: k in tokens ==> k in old(tokens) && tokens[k] == old(tokens)[k]
      requires forall k :: k in old(tokens) ==> (k in tokens <==> !(now - old(tokens)[k].lastRefill > cfg.interval))
      ensures Valid() && tokens.Values <= old(tokens.Values)
      ensures View() == SweepStep(cfg, old(View()), now)
    {
    }
  }
}

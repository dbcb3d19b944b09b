/** The per-client token-bucket limiter and its idle sweeper, over the reals.

    Times are in seconds. A request and the sweep of one bucket are each one step. */
module RateLimiter {
  import opened Collections

  type Key = string

  datatype Config = Config(rpm: real, burst: real) {
    predicate Valid() { rpm > 0.0 && burst > 0.0 }
  }

  datatype Bucket = Bucket(tokens: real, last: real)

  type Buckets = map<Key, Bucket>

  // ---------------------------------------------------------------- one request, one sweep

  function Min(a: real, b: real): real { if a > b then b else a }

  function Max(a: real, b: real): real { if a < b then b else a }

  /** Tokens earned in `dt` seconds. */
  function Gain(cfg: Config, dt: real): real { dt * cfg.rpm / 60.0 }

  function Level(cfg: Config, b: Bucket, now: real): real {
    Min(cfg.burst, b.tokens + Gain(cfg, now - b.last))
  }

  /** `LoadOrStore`: an unknown key starts with a full bucket. */
  function Find(cfg: Config, buckets: Buckets, key: Key, now: real): Bucket {
    if key in buckets then buckets[key] else Bucket(cfg.burst, now)
  }

  function Taken(cfg: Config, b: Bucket, now: real): (Bucket, bool) {
    var level := Level(cfg, b, now);
    if level < 1.0 then (Bucket(level, now), false) else (Bucket(level - 1.0, now), true)
  }

  predicate Idle(b: Bucket, now: real, idle: real) { now - b.last >= idle }

  function Swept(buckets: Buckets, key: Key, now: real, idle: real): Buckets {
    if key in buckets && Idle(buckets[key], now, idle) then buckets - {key} else buckets
  }

  /** The refill time from empty to full, at least a minute. */
  function IdleTtl(cfg: Config): real {
    if cfg.rpm <= 0.0 then 60.0 else Max(cfg.burst / cfg.rpm * 60.0, 60.0)
  }

  lemma GainGrows(cfg: Config, a: real, b: real)
    requires cfg.Valid() && a <= b
    ensures Gain(cfg, a) <= Gain(cfg, b)
  {
    assert a * cfg.rpm <= b * cfg.rpm;
  }

  lemma GainRefills(cfg: Config, idle: real)
    requires cfg.Valid() && idle >= IdleTtl(cfg)
    ensures Gain(cfg, idle) >= cfg.burst
  {
    var refill := cfg.burst / cfg.rpm * 60.0;
    GainGrows(cfg, refill, idle);
    assert Gain(cfg, refill) == cfg.burst;
  }

  /** The idle time is the least that is a whole minute and fills an empty bucket. */
  lemma IdleTtlIsLeast(cfg: Config, t: real)
    requires cfg.burst > 0.0
    ensures cfg.rpm > 0.0 ==> (t >= IdleTtl(cfg) <==> t >= 60.0 && t * cfg.rpm / 60.0 >= cfg.burst)
    ensures cfg.rpm <= 0.0 ==> IdleTtl(cfg) == 60.0
  {
    if cfg.rpm > 0.0 {
      var refill := cfg.burst / cfg.rpm * 60.0;
      assert Gain(cfg, refill) == cfg.burst;
      if t >= refill { GainGrows(cfg, refill, t); } else { assert t * cfg.rpm < refill * cfg.rpm; }
    }
  }

  // ---------------------------------------------------------------- traces

  datatype Event =
    | Request(key: Key, at: real)
    | Sweep(key: Key, at: real, idle: real)

  /** Clock readings: no request reads an earlier time than any step before it. */
  predicate Ordered(trace: seq<Event>) {
    forall i, j | 0 <= i < j < |trace| && trace[j].Request? :: trace[i].at <= trace[j].at
  }

  predicate NotBefore(trace: seq<Event>, t: real) {
    forall i | 0 <= i < |trace| && trace[i].Request? :: t <= trace[i].at
  }

  datatype Decision = Decision(key: Key, at: real, ok: bool)

  function Next(cfg: Config, buckets: Buckets, e: Event): Buckets {
    match e
    case Request(key, at) => buckets[key := Taken(cfg, Find(cfg, buckets, key, at), at).0]
    case Sweep(key, at, idle) => Swept(buckets, key, at, idle)
  }

  /** The decisions of a trace, in order. */
  function Decisions(cfg: Config, buckets: Buckets, trace: seq<Event>): seq<Decision>
    decreases |trace|
  {
    if trace == [] then []
    else
      var rest := Decisions(cfg, Next(cfg, buckets, trace[0]), trace[1..]);
      match trace[0]
      case Request(key, at) => [Decision(key, at, Taken(cfg, Find(cfg, buckets, key, at), at).1)] + rest
      case Sweep(_, _, _) => rest
  }

  ghost predicate Sane(cfg: Config, buckets: Buckets, now: real) {
    forall k | k in buckets :: 0.0 <= buckets[k].tokens <= cfg.burst && buckets[k].last <= now
  }

  lemma NextSane(cfg: Config, buckets: Buckets, e: Event, now: real)
    requires cfg.Valid() && Sane(cfg, buckets, now) && (e.Request? ==> now <= e.at)
    ensures Sane(cfg, Next(cfg, buckets, e), Max(now, e.at))
  {
    if e.Request? {
      var b := Find(cfg, buckets, e.key, e.at);
      GainGrows(cfg, 0.0, e.at - b.last);
    }
  }

  function StateAfter(cfg: Config, buckets: Buckets, trace: seq<Event>): Buckets
    decreases |trace|
  {
    if trace == [] then buckets else StateAfter(cfg, Next(cfg, buckets, trace[0]), trace[1..])
  }

  /** A bucket's tokens stay between zero and the burst, over every trace. */
  lemma {:induction false} TokensStayInRange(cfg: Config, buckets: Buckets, trace: seq<Event>, now: real, key: Key)
    requires cfg.Valid() && Sane(cfg, buckets, now) && Ordered(trace) && NotBefore(trace, now)
    requires key in StateAfter(cfg, buckets, trace)
    ensures 0.0 <= StateAfter(cfg, buckets, trace)[key].tokens <= cfg.burst
    decreases |trace|
  {
    if trace != [] {
      NextSane(cfg, buckets, trace[0], now);
      TailOrdered(trace, now);
      TokensStayInRange(cfg, Next(cfg, buckets, trace[0]), trace[1..], Max(now, trace[0].at), key);
    }
  }

  lemma TailOrdered(trace: seq<Event>, now: real)
    requires trace != [] && Ordered(trace) && NotBefore(trace, now)
    ensures Ordered(trace[1..]) && NotBefore(trace[1..], Max(now, trace[0].at))
  {
    var tail := trace[1..];
    forall i, j | 0 <= i < j < |tail| && tail[j].Request? ensures tail[i].at <= tail[j].at {
      assert tail[i] == trace[i + 1] && tail[j] == trace[j + 1];
    }
    forall i | 0 <= i < |tail| && tail[i].Request? ensures Max(now, trace[0].at) <= tail[i].at {
      assert tail[i] == trace[i + 1];
    }
  }

  // ---------------------------------------------------------------- sweeping is invisible

  function NoSweeps(trace: seq<Event>): seq<Event> {
    if trace == [] then []
    else if trace[0].Sweep? then NoSweeps(trace[1..])
    else [trace[0]] + NoSweeps(trace[1..])
  }

  /** Every sweep waits at least the refill time; the code's own threshold does. */
  predicate SweepsPatient(cfg: Config, trace: seq<Event>) {
    forall i | 0 <= i < |trace| && trace[i].Sweep? :: Gain(cfg, trace[i].idle) >= cfg.burst
  }

  lemma IdleTtlIsPatient(cfg: Config, trace: seq<Event>)
    requires cfg.Valid() && forall i | 0 <= i < |trace| && trace[i].Sweep? :: trace[i].idle >= IdleTtl(cfg)
    ensures SweepsPatient(cfg, trace)
  {
    forall i | 0 <= i < |trace| && trace[i].Sweep? ensures Gain(cfg, trace[i].idle) >= cfg.burst {
      GainRefills(cfg, trace[i].idle);
    }
  }

  /** The swept limiter lacks only buckets that would be full at any request from `now` on. */
  ghost predicate Simulates(cfg: Config, swept: Buckets, kept: Buckets, now: real) {
    && (forall k | k in swept :: k in kept && swept[k] == kept[k])
    && (forall k | k in kept && k !in swept :: kept[k].tokens + Gain(cfg, now - kept[k].last) >= cfg.burst)
  }

  lemma RequestSimulates(cfg: Config, swept: Buckets, kept: Buckets, now: real, key: Key, at: real)
    requires cfg.Valid() && Simulates(cfg, swept, kept, now) && now <= at
    ensures Taken(cfg, Find(cfg, swept, key, at), at) == Taken(cfg, Find(cfg, kept, key, at), at)
    ensures Simulates(cfg, Next(cfg, swept, Request(key, at)), Next(cfg, kept, Request(key, at)), at)
  {
    forall k | k in kept && k !in swept ensures kept[k].tokens + Gain(cfg, at - kept[k].last) >= cfg.burst {
      GainGrows(cfg, now - kept[k].last, at - kept[k].last);
    }
  }

  lemma SweepSimulates(cfg: Config, swept: Buckets, kept: Buckets, now: real, key: Key, at: real, idle: real)
    requires cfg.Valid() && Simulates(cfg, swept, kept, now) && Sane(cfg, kept, now) && Gain(cfg, idle) >= cfg.burst
    ensures Simulates(cfg, Swept(swept, key, at, idle), kept, Max(now, at))
  {
    forall k | k in kept && k !in Swept(swept, key, at, idle)
      ensures kept[k].tokens + Gain(cfg, Max(now, at) - kept[k].last) >= cfg.burst
    {
      if k in swept {
        GainGrows(cfg, idle, Max(now, at) - kept[k].last);
      } else {
        GainGrows(cfg, now - kept[k].last, Max(now, at) - kept[k].last);
      }
    }
  }

  lemma {:induction false} SimulationDecides(cfg: Config, swept: Buckets, kept: Buckets, trace: seq<Event>, now: real)
    requires cfg.Valid() && Simulates(cfg, swept, kept, now) && Sane(cfg, kept, now)
    requires Ordered(trace) && NotBefore(trace, now) && SweepsPatient(cfg, trace)
    ensures Decisions(cfg, swept, trace) == Decisions(cfg, kept, NoSweeps(trace))
    decreases |trace|
  {
    if trace != [] {
      var e := trace[0];
      TailOrdered(trace, now);
      NextSane(cfg, kept, e, now);
      if e.Request? {
        RequestSimulates(cfg, swept, kept, now, e.key, e.at);
        SimulationDecides(cfg, Next(cfg, swept, e), Next(cfg, kept, e), trace[1..], e.at);
        assert NoSweeps(trace)[1..] == NoSweeps(trace[1..]);
      } else {
        SweepSimulates(cfg, swept, kept, now, e.key, e.at, e.idle);
        SimulationDecides(cfg, Next(cfg, swept, e), kept, trace[1..], Max(now, e.at));
      }
    }
  }

  /** Every decision of a limiter swept at any times, each sweep as patient as the refill
      time, is the decision of a limiter that is never swept. */
  lemma SweepingIsInvisible(cfg: Config, trace: seq<Event>)
    requires cfg.Valid() && Ordered(trace) && SweepsPatient(cfg, trace)
    ensures Decisions(cfg, map[], trace) == Decisions(cfg, map[], NoSweeps(trace))
  {
    if |trace| > 0 {
      var first := Earliest(trace);
      SimulationDecides(cfg, map[], map[], trace, first);
    }
  }

  function Earliest(trace: seq<Event>): (t: real)
    ensures NotBefore(trace, t)
  {
    if trace == [] then 0.0 else Min(trace[0].at, Earliest(trace[1..]))
  }

  // ---------------------------------------------------------------- a less patient sweep shows

  function Volley(key: Key, at: real, n: nat): seq<Event> {
    if n == 0 then [] else [Request(key, at)] + Volley(key, at, n - 1)
  }

  predicate AllOk(ds: seq<Decision>) { forall i | 0 <= i < |ds| :: ds[i].ok }

  /** A volley passes exactly when the bucket holds a token for each shot. */
  lemma {:induction false} VolleyPasses(cfg: Config, buckets: Buckets, key: Key, at: real, n: nat)
    requires Level(cfg, Find(cfg, buckets, key, at), at) >= 0.0
    ensures AllOk(Decisions(cfg, buckets, Volley(key, at, n))) <==>
        n as real <= Level(cfg, Find(cfg, buckets, key, at), at)
    ensures n > 0 && n as real <= Level(cfg, Find(cfg, buckets, key, at), at) ==>
      StateAfter(cfg, buckets, Volley(key, at, n))
          == buckets[key := Bucket(Level(cfg, Find(cfg, buckets, key, at), at) - n as real, at)]
    decreases n
  {
    if n > 0 {
      var e := Request(key, at);
      var next := Next(cfg, buckets, e);
      var level := Level(cfg, Find(cfg, buckets, key, at), at);
      assert Volley(key, at, n)[1..] == Volley(key, at, n - 1);
      var first := Decision(key, at, level >= 1.0);
      assert Decisions(cfg, buckets, Volley(key, at, n)) == [first] + Decisions(cfg, next, Volley(key, at, n - 1));
      assert Gain(cfg, at - at) == 0.0;
      assert first.ok ==> Level(cfg, Find(cfg, next, key, at), at) == level - 1.0;
      AllOkCons(first, Decisions(cfg, next, Volley(key, at, n - 1)));
      if first.ok { VolleyPasses(cfg, next, key, at, n - 1); }
    }
  }

  lemma AllOkCons(d: Decision, ds: seq<Decision>)
    ensures AllOk([d] + ds) <==> d.ok && AllOk(ds)
  {
    if AllOk([d] + ds) {
      assert ([d] + ds)[0] == d;
      forall i | 0 <= i < |ds| ensures ds[i].ok { assert ([d] + ds)[i + 1] == ds[i]; }
    }
  }

  lemma {:induction false} DecisionsSplit(cfg: Config, buckets: Buckets, a: seq<Event>, b: seq<Event>)
    ensures Decisions(cfg, buckets, a + b) ==
            Decisions(cfg, buckets, a) + Decisions(cfg, StateAfter(cfg, buckets, a), b)
    decreases |a|
  {
    if a == [] {
      assert a + b == b;
    } else {
      assert (a + b)[1..] == a[1..] + b;
      DecisionsSplit(cfg, Next(cfg, buckets, a[0]), a[1..], b);
    }
  }

  lemma {:induction false} AllOkConcat(a: seq<Decision>, b: seq<Decision>)
    ensures AllOk(a + b) <==> AllOk(a) && AllOk(b)
  {
    if AllOk(a + b) {
      forall i | 0 <= i < |a| ensures a[i].ok { assert (a + b)[i] == a[i]; }
      forall i | 0 <= i < |b| ensures b[i].ok { assert (a + b)[|a| + i] == b[i]; }
    }
  }

  lemma {:induction false} StateSplit(cfg: Config, buckets: Buckets, a: seq<Event>, b: seq<Event>)
    ensures StateAfter(cfg, buckets, a + b) == StateAfter(cfg, StateAfter(cfg, buckets, a), b)
    decreases |a|
  {
    if a == [] {
      assert a + b == b;
    } else {
      assert (a + b)[1..] == a[1..] + b;
      StateSplit(cfg, Next(cfg, buckets, a[0]), a[1..], b);
    }
  }

  predicate AllRequests(trace: seq<Event>) { forall i | 0 <= i < |trace| :: trace[i].Request? }

  lemma {:induction false} NoSweepsSplit(a: seq<Event>, b: seq<Event>)
    ensures NoSweeps(a + b) == NoSweeps(a) + NoSweeps(b)
    decreases |a|
  {
    if a == [] {
      assert a + b == b;
    } else {
      assert (a + b)[1..] == a[1..] + b;
      NoSweepsSplit(a[1..], b);
    }
  }

  lemma {:induction false} RequestsStay(trace: seq<Event>)
    requires AllRequests(trace)
    ensures NoSweeps(trace) == trace
  {
    if trace != [] { RequestsStay(trace[1..]); }
  }

  /** The time that earns `tokens`. */
  function Wait(cfg: Config, tokens: real): (dt: real)
    requires cfg.Valid()
    ensures Gain(cfg, dt) == tokens && (tokens >= 0.0 ==> dt >= 0.0)
  {
    tokens * 60.0 / cfg.rpm
  }

  /** Whole tokens in a full bucket, and what is left over. */
  function Whole(cfg: Config): (n: nat)
    requires cfg.burst >= 1.0
    ensures 1 <= n && n as real <= cfg.burst < n as real + 1.0
  {
    cfg.burst.Floor
  }

  function Part(cfg: Config): (part: real)
    requires cfg.burst >= 1.0
    ensures 0.0 <= part < 1.0
  {
    cfg.burst - Whole(cfg) as real
  }

  /** A whole burst at once, and one request more as soon as one token is there. */
  function Probe(cfg: Config, key: Key, at: real): seq<Event>
    requires cfg.Valid() && cfg.burst >= 1.0
  {
    Volley(key, at, Whole(cfg)) + [Request(key, at + Wait(cfg, 1.0 - Part(cfg)))]
  }

  lemma {:induction false} VolleyIs(key: Key, at: real, n: nat)
    ensures |Volley(key, at, n)| == n && forall i | 0 <= i < n :: Volley(key, at, n)[i] == Request(key, at)
  {
    if n > 0 { VolleyIs(key, at, n - 1); }
  }

  lemma ProbeTimes(cfg: Config, key: Key, at: real)
    requires cfg.Valid() && cfg.burst >= 1.0
    ensures var p := Probe(cfg, key, at);
            AllRequests(p) && Ordered(p) && forall i | 0 <= i < |p| :: at <= p[i].at <= at + Wait(cfg, 1.0 - Part(cfg))
  {
    VolleyIs(key, at, Whole(cfg));
  }

  /** A probe passes exactly when the burst does and what it leaves grows to a token. */
  lemma ProbePasses(cfg: Config, buckets: Buckets, key: Key, at: real)
    requires cfg.Valid() && cfg.burst >= 1.0 && Level(cfg, Find(cfg, buckets, key, at), at) >= 0.0
    ensures var level := Level(cfg, Find(cfg, buckets, key, at), at);
            AllOk(Decisions(cfg, buckets, Probe(cfg, key, at))) <==> level >= cfg.burst
    ensures Level(cfg, Find(cfg, buckets, key, at), at) >= cfg.burst ==>
              StateAfter(cfg, buckets, Probe(cfg, key, at))
                  == buckets[key := Bucket(0.0, at + Wait(cfg, 1.0 - Part(cfg)))]
  {
    var n, level := Whole(cfg), Level(cfg, Find(cfg, buckets, key, at), at);
    var volley, last := Volley(key, at, n), Request(key, at + Wait(cfg, 1.0 - Part(cfg)));
    VolleyPasses(cfg, buckets, key, at, n);
    DecisionsSplit(cfg, buckets, volley, [last]);
    StateSplit(cfg, buckets, volley, [last]);
    var after := StateAfter(cfg, buckets, volley);
    AllOkConcat(Decisions(cfg, buckets, volley), Decisions(cfg, after, [last]));
    if n as real <= level { LastShot(cfg, after, key, at, level - n as real); }
  }

  lemma LastShot(cfg: Config, buckets: Buckets, key: Key, at: real, left: real)
    requires cfg.Valid() && cfg.burst >= 1.0 && key in buckets && buckets[key] == Bucket(left, at) && left <= Part(cfg)
    ensures var last := Request(key, at + Wait(cfg, 1.0 - Part(cfg)));
            && (AllOk(Decisions(cfg, buckets, [last])) <==> left >= Part(cfg))
            && (left >= Part(cfg) ==> StateAfter(cfg, buckets, [last]) == buckets[key := Bucket(0.0, last.at)])
  {
    var dt := Wait(cfg, 1.0 - Part(cfg));
    var last := Request(key, at + dt);
    OneDecision(cfg, buckets, last);
    assert last.at - at == dt;
    assert Level(cfg, Bucket(left, at), last.at) == left + (1.0 - Part(cfg));
    assert StateAfter(cfg, buckets, [last]) == Next(cfg, buckets, last);
    assert Decisions(cfg, buckets, [last])[0].ok <==> left >= Part(cfg);
  }

  /** Drain a new bucket to zero, sweep it, and probe. */
  function DrainSweepProbe(cfg: Config, key: Key, idle: real): seq<Event>
    requires cfg.Valid() && cfg.burst >= 1.0
  {
    var empty := Wait(cfg, 1.0 - Part(cfg));
    Probe(cfg, key, 0.0) + ([Sweep(key, empty + idle, idle)] + Probe(cfg, key, empty + idle))
  }

  /** A sweep that waits less than the refill time can be told from none, by draining a
      bucket to zero before it and probing after it. */
  lemma ImpatientSweepsShow(cfg: Config, key: Key, idle: real)
    requires cfg.Valid() && cfg.burst >= 1.0 && idle >= 0.0 && Gain(cfg, idle) < cfg.burst
    ensures var trace := DrainSweepProbe(cfg, key, idle);
            Decisions(cfg, map[], trace) != Decisions(cfg, map[], NoSweeps(trace))
  {
    var empty := Wait(cfg, 1.0 - Part(cfg));
    var drain, sweep, probe := Probe(cfg, key, 0.0), Sweep(key, empty + idle, idle), Probe(cfg, key, empty + idle);
    ProbeTimes(cfg, key, 0.0);
    ProbeTimes(cfg, key, empty + idle);
    DropTheSweep(drain, sweep, probe);
    ProbePasses(cfg, map[], key, 0.0);
    var drained: Buckets := map[key := Bucket(0.0, empty)];
    assert StateAfter(cfg, map[], drain) == drained;
    DecisionsSplit(cfg, map[], drain, [sweep] + probe);
    DecisionsSplit(cfg, map[], drain, probe);
    assert ([sweep] + probe)[1..] == probe;
    assert Decisions(cfg, drained, [sweep] + probe) == Decisions(cfg, map[], probe) by {
      assert Swept(drained, key, empty + idle, idle) == map[];
    }
    ProbePasses(cfg, map[], key, empty + idle);
    GainGrows(cfg, 0.0, idle);
    GainAdds(cfg, 0.0, 0.0);
    assert Level(cfg, Bucket(0.0, empty), empty + idle) == Gain(cfg, idle);
    ProbePasses(cfg, drained, key, empty + idle);
    var d := Decisions(cfg, map[], drain);
    assert (d + Decisions(cfg, map[], probe))[|d|..] == Decisions(cfg, map[], probe);
    assert (d + Decisions(cfg, drained, probe))[|d|..] == Decisions(cfg, drained, probe);
  }

  lemma DropTheSweep(drain: seq<Event>, sweep: Event, probe: seq<Event>)
    requires AllRequests(drain) && AllRequests(probe) && sweep.Sweep?
    ensures NoSweeps(drain + ([sweep] + probe)) == drain + probe
  {
    NoSweepsSplit(drain, [sweep] + probe);
    assert ([sweep] + probe)[1..] == probe;
    RequestsStay(drain);
    RequestsStay(probe);
  }

  lemma DrainSweepProbeOrdered(cfg: Config, key: Key, idle: real)
    requires cfg.Valid() && cfg.burst >= 1.0 && idle >= 0.0
    ensures Ordered(DrainSweepProbe(cfg, key, idle)) && SweepsWait(DrainSweepProbe(cfg, key, idle), idle)
  {
    var empty := Wait(cfg, 1.0 - Part(cfg));
    ProbeTimes(cfg, key, 0.0);
    ProbeTimes(cfg, key, empty + idle);
    OrderedJoin([Sweep(key, empty + idle, idle)], Probe(cfg, key, empty + idle), empty + idle);
    OrderedJoin(Probe(cfg, key, 0.0), [Sweep(key, empty + idle, idle)] + Probe(cfg, key, empty + idle), empty);
  }

  lemma OrderedJoin(a: seq<Event>, b: seq<Event>, t: real)
    requires Ordered(a) && Ordered(b) && (forall i | 0 <= i < |a| :: a[i].at <= t)
    requires forall j | 0 <= j < |b| :: t <= b[j].at
    ensures Ordered(a + b)
  {
    forall i, j | 0 <= i < j < |a + b| && (a + b)[j].Request? ensures (a + b)[i].at <= (a + b)[j].at {
      assert (a + b)[i] == (if i < |a| then a[i] else b[i - |a|]) && (a + b)[j] == if j < |a| then a[j] else b[j - |a|];
    }
  }

  /** With less than one token to a bucket nothing is ever admitted, swept or not. */
  lemma {:induction false} NothingPasses(cfg: Config, swept: Buckets, kept: Buckets, trace: seq<Event>)
    requires cfg.Valid() && cfg.burst < 1.0
    ensures Decisions(cfg, swept, trace) == Decisions(cfg, kept, NoSweeps(trace))
    decreases |trace|
  {
    if trace != [] {
      var e := trace[0];
      match e {
        case Request(_, _) =>
          NothingPasses(cfg, Next(cfg, swept, e), Next(cfg, kept, e), trace[1..]);
          assert ([e] + NoSweeps(trace[1..]))[1..] == NoSweeps(trace[1..]);
        case Sweep(_, _, _) => NothingPasses(cfg, Next(cfg, swept, e), kept, trace[1..]);
      }
    }
  }

  predicate SweepsWait(trace: seq<Event>, idle: real) {
    forall i | 0 <= i < |trace| && trace[i].Sweep? :: trace[i].idle >= idle
  }

  ghost predicate AlwaysInvisible(cfg: Config, idle: real) {
    forall trace: seq<Event> | Ordered(trace) && SweepsWait(trace, idle) ::
      Decisions(cfg, map[], trace) == Decisions(cfg, map[], NoSweeps(trace))
  }

  /** Sweeps that wait at least `idle` are invisible in every trace exactly when an empty
      bucket would have refilled by then, or no bucket ever holds a token to lose. */
  lemma SweepsInvisibleIff(cfg: Config, idle: real)
    requires cfg.Valid()
    ensures AlwaysInvisible(cfg, idle) <==> Gain(cfg, idle) >= cfg.burst || cfg.burst < 1.0
  {
    if cfg.burst < 1.0 {
      forall trace: seq<Event> | Ordered(trace) && SweepsWait(trace, idle)
        ensures Decisions(cfg, map[], trace) == Decisions(cfg, map[], NoSweeps(trace))
      {
        NothingPasses(cfg, map[], map[], trace);
      }
    } else if Gain(cfg, idle) >= cfg.burst {
      forall trace: seq<Event> | Ordered(trace) && SweepsWait(trace, idle)
        ensures Decisions(cfg, map[], trace) == Decisions(cfg, map[], NoSweeps(trace))
      {
        forall i | 0 <= i < |trace| && trace[i].Sweep? ensures Gain(cfg, trace[i].idle) >= cfg.burst {
          GainGrows(cfg, idle, trace[i].idle);
        }
        SweepingIsInvisible(cfg, trace);
      }
    } else {
      var wait := Max(idle, 0.0);
      GainAdds(cfg, 0.0, 0.0);
      ImpatientSweepsShow(cfg, "", wait);
      DrainSweepProbeOrdered(cfg, "", wait);
    }
  }

  // ---------------------------------------------------------------- keys are independent

  function OfKey(trace: seq<Event>, key: Key): seq<Event> {
    if trace == [] then []
    else if trace[0].key == key then [trace[0]] + OfKey(trace[1..], key)
    else OfKey(trace[1..], key)
  }

  function DecisionsFor(ds: seq<Decision>, key: Key): seq<Decision> {
    if ds == [] then []
    else if ds[0].key == key then [ds[0]] + DecisionsFor(ds[1..], key)
    else DecisionsFor(ds[1..], key)
  }

  predicate Agree(a: Buckets, b: Buckets, key: Key) {
    (key in a <==> key in b) && (key in a ==> a[key] == b[key])
  }

  /** What a key is allowed depends on its own requests and sweeps only. */
  lemma {:induction false} KeysAreIndependent(cfg: Config, all: Buckets, own: Buckets, trace: seq<Event>, key: Key)
    requires Agree(all, own, key)
    ensures DecisionsFor(Decisions(cfg, all, trace), key) == Decisions(cfg, own, OfKey(trace, key))
    decreases |trace|
  {
    if trace != [] {
      var e := trace[0];
      if e.key == key {
        KeysAreIndependent(cfg, Next(cfg, all, e), Next(cfg, own, e), trace[1..], key);
        assert OfKey(trace, key)[1..] == OfKey(trace[1..], key);
        if e.Request? {
          assert Decisions(cfg, all, trace)[1..] == Decisions(cfg, Next(cfg, all, e), trace[1..]);
        }
      } else {
        KeysAreIndependent(cfg, Next(cfg, all, e), own, trace[1..], key);
        if e.Request? {
          assert Decisions(cfg, all, trace)[1..] == Decisions(cfg, Next(cfg, all, e), trace[1..]);
        }
      }
    }
  }

  // ---------------------------------------------------------------- the window bound

  /** Requests of `key` admitted between `t0` and `t1`. */
  function Admitted(ds: seq<Decision>, key: Key, t0: real, t1: real): nat {
    if ds == [] then 0
    else (if ds[0].key == key && ds[0].ok && t0 <= ds[0].at <= t1 then 1 else 0) + Admitted(ds[1..], key, t0, t1)
  }

  /** The places of those requests among the decisions. */
  function AdmittedAt(ds: seq<Decision>, key: Key, t0: real, t1: real): set<int> {
    set i | 0 <= i < |ds| && ds[i].key == key && ds[i].ok && t0 <= ds[i].at <= t1
  }

  lemma {:induction false} AdmittedIsSize(ds: seq<Decision>, key: Key, t0: real, t1: real)
    ensures Admitted(ds, key, t0, t1) == |AdmittedAt(ds, key, t0, t1)|
  {
    if ds == [] {
      assert AdmittedAt(ds, key, t0, t1) == {};
    } else {
      var here, rest := AdmittedAt(ds, key, t0, t1), AdmittedAt(ds[1..], key, t0, t1);
      AdmittedIsSize(ds[1..], key, t0, t1);
      FirstDecision(ds, key, t0, t1);
      ShiftKeepsSize(rest, here - {0});
    }
  }

  lemma FirstDecision(ds: seq<Decision>, key: Key, t0: real, t1: real)
    requires ds != []
    ensures 0 in AdmittedAt(ds, key, t0, t1) <==> ds[0].key == key && ds[0].ok && t0 <= ds[0].at <= t1
    ensures forall i :: i in AdmittedAt(ds[1..], key, t0, t1) <==> i + 1 in AdmittedAt(ds, key, t0, t1) - {0}
  {
    forall i ensures i in AdmittedAt(ds[1..], key, t0, t1) <==> i + 1 in AdmittedAt(ds, key, t0, t1) - {0} {
      assert 0 <= i < |ds| - 1 ==> ds[1..][i] == ds[i + 1];
    }
  }

  lemma {:induction false} ShiftKeepsSize(a: set<int>, b: set<int>)
    requires forall i :: i in a <==> i + 1 in b
    ensures |a| == |b|
    decreases |a|
  {
    if a == {} {
      assert forall i | i in b :: i - 1 in a;
      assert b == {};
    } else {
      var i: int := SomeOf(a);
      ShiftKeepsSize(a - {i}, b - {i + 1});
    }
  }

  /** What `key` can still be granted between `now` and `t1`. */
  function Budget(cfg: Config, buckets: Buckets, key: Key, now: real, t1: real): real {
    Level(cfg, Find(cfg, buckets, key, now), now) + Gain(cfg, t1 - now)
  }

  lemma {:induction false} BudgetBoundsAdmitted(cfg: Config, buckets: Buckets, trace: seq<Event>, key: Key,
      now: real, t0: real, t1: real)
    requires cfg.Valid() && Sane(cfg, buckets, now) && Ordered(trace) && NotBefore(trace, now) && t0 <= t1
    requires forall i | 0 <= i < |trace| :: trace[i].Request?
    ensures Max(now, t0) <= t1 ==>
      Admitted(Decisions(cfg, buckets, trace), key, t0, t1) as real <= Budget(cfg, buckets, key, Max(now, t0), t1)
    ensures now > t1 ==> Admitted(Decisions(cfg, buckets, trace), key, t0, t1) == 0
    decreases |trace|
  {
    if trace == [] {
      if Max(now, t0) <= t1 { BudgetIsPositive(cfg, buckets, key, now, Max(now, t0), t1); }
    } else {
      var e := trace[0];
      TailOrdered(trace, now);
      NextSane(cfg, buckets, e, now);
      var next := Next(cfg, buckets, e);
      assert Decisions(cfg, buckets, trace)[1..] == Decisions(cfg, next, trace[1..]);
      BudgetBoundsAdmitted(cfg, next, trace[1..], key, e.at, t0, t1);
      if Max(now, t0) <= t1 {
        if e.at > t1 {
          BudgetIsPositive(cfg, buckets, key, now, Max(now, t0), t1);
        } else {
          BudgetAfter(cfg, buckets, e, key, now, t0, t1);
        }
      }
    }
  }

  lemma BudgetIsPositive(cfg: Config, buckets: Buckets, key: Key, now: real, from: real, t1: real)
    requires cfg.Valid() && Sane(cfg, buckets, now) && now <= from <= t1
    ensures Budget(cfg, buckets, key, from, t1) >= 0.0
  {
    GainGrows(cfg, 0.0, t1 - from);
    if key in buckets { GainGrows(cfg, 0.0, from - buckets[key].last); }
  }

  lemma BudgetAfter(cfg: Config, buckets: Buckets, e: Event, key: Key, now: real, t0: real, t1: real)
    requires cfg.Valid() && e.Request? && now <= e.at <= t1 && t0 <= t1
    ensures Budget(cfg, Next(cfg, buckets, e), key, Max(e.at, t0), t1)
            + (if e.key == key && t0 <= e.at && Taken(cfg, Find(cfg, buckets, key, e.at), e.at).1 then 1.0 else 0.0)
            <= Budget(cfg, buckets, key, Max(now, t0), t1)
  {
    var from := Max(now, t0);
    if e.key != key {
      BudgetFalls(cfg, buckets, key, from, Max(e.at, t0), t1);
    } else if t0 <= e.at {
      BudgetFalls(cfg, buckets, key, from, e.at, t1);
      GainAdds(cfg, 0.0, 0.0);
    } else if key in buckets {
      GainAdds(cfg, e.at - buckets[key].last, t0 - e.at);
    }
  }

  lemma GainAdds(cfg: Config, a: real, b: real)
    requires cfg.Valid()
    ensures Gain(cfg, a) + Gain(cfg, b) == Gain(cfg, a + b)
  {
    assert a * cfg.rpm + b * cfg.rpm == (a + b) * cfg.rpm;
  }

  /** Waiting never adds to what a key can still be granted before `t1`. */
  lemma BudgetFalls(cfg: Config, buckets: Buckets, key: Key, x: real, y: real, t1: real)
    requires cfg.Valid() && x <= y
    ensures Budget(cfg, buckets, key, y, t1) <= Budget(cfg, buckets, key, x, t1)
  {
    GainGrows(cfg, 0.0, y - x);
    GainAdds(cfg, y - x, t1 - y);
    GainAdds(cfg, 0.0, 0.0);
    if key in buckets { GainAdds(cfg, x - buckets[key].last, y - x); }
  }

  lemma {:induction false} NoSweepsLeavesRequests(trace: seq<Event>, now: real)
    requires Ordered(trace) && NotBefore(trace, now)
    ensures Ordered(NoSweeps(trace)) && NotBefore(NoSweeps(trace), now)
    ensures forall i | 0 <= i < |NoSweeps(trace)| :: NoSweeps(trace)[i].Request?
  {
    if trace != [] {
      TailOrdered(trace, now);
      NoSweepsLeavesRequests(trace[1..], Max(now, trace[0].at));
      if trace[0].Request? { ConsOrdered(trace[0], NoSweeps(trace[1..]), now); }
    }
  }

  lemma ConsOrdered(e: Event, tail: seq<Event>, now: real)
    requires Ordered(tail) && NotBefore(tail, Max(now, e.at)) && now <= e.at
    ensures Ordered([e] + tail) && NotBefore([e] + tail, now)
  {
  }

  /** `n` admissions in `dt` seconds are no more than a burst and `rpm` a minute. */
  predicate WithinRate(cfg: Config, n: nat, dt: real) { n as real <= cfg.burst + dt * cfg.rpm / 60.0 }

  /** Over any trace of requests and patient sweeps, one key is admitted at most
      burst + rpm * (t1 - t0) / 60 times in a window of t1 - t0 seconds. */
  lemma WindowBound(cfg: Config, trace: seq<Event>, key: Key, t0: real, t1: real)
    requires cfg.Valid() && Ordered(trace) && SweepsPatient(cfg, trace) && t0 <= t1
    ensures WithinRate(cfg, Admitted(Decisions(cfg, map[], trace), key, t0, t1), t1 - t0)
  {
    SweptWindowBound(cfg, trace, key, t0, t1);
    SpelledOut(cfg, Admitted(Decisions(cfg, map[], trace), key, t0, t1), t1 - t0);
  }

  lemma SpelledOut(cfg: Config, n: nat, dt: real)
    requires n as real <= cfg.burst + Gain(cfg, dt)
    ensures WithinRate(cfg, n, dt)
  {
  }

  lemma SweptWindowBound(cfg: Config, trace: seq<Event>, key: Key, t0: real, t1: real)
    requires cfg.Valid() && Ordered(trace) && SweepsPatient(cfg, trace) && t0 <= t1
    ensures Admitted(Decisions(cfg, map[], trace), key, t0, t1) as real <= cfg.burst + Gain(cfg, t1 - t0)
  {
    SweepingIsInvisible(cfg, trace);
    var first := Earliest(trace);
    NoSweepsLeavesRequests(trace, first);
    UnsweptWindowBound(cfg, NoSweeps(trace), key, first, t0, t1);
  }

  lemma UnsweptWindowBound(cfg: Config, trace: seq<Event>, key: Key, first: real, t0: real, t1: real)
    requires cfg.Valid() && Ordered(trace) && NotBefore(trace, first) && t0 <= t1
    requires forall i | 0 <= i < |trace| :: trace[i].Request?
    ensures Admitted(Decisions(cfg, map[], trace), key, t0, t1) as real <= cfg.burst + Gain(cfg, t1 - t0)
  {
    BudgetBoundsAdmitted(cfg, map[], trace, key, first, t0, t1);
    GainGrows(cfg, 0.0, t1 - t0);
    if Max(first, t0) <= t1 {
      GainGrows(cfg, t1 - Max(first, t0), t1 - t0);
      assert Budget(cfg, map[], key, Max(first, t0), t1) == cfg.burst + Gain(cfg, t1 - Max(first, t0));
    }
  }

  // ---------------------------------------------------------------- no starvation

  /** Consecutive requests of one key at least `gap` seconds apart. */
  predicate Spaced(trace: seq<Event>, gap: real) {
    forall i | 0 < i < |trace| :: trace[i].at >= trace[i - 1].at + gap
  }

  predicate OnlyRequestsOf(trace: seq<Event>, key: Key) {
    forall i | 0 <= i < |trace| :: trace[i].Request? && trace[i].key == key
  }

  lemma {:induction false} SpacedRequestsPass(cfg: Config, buckets: Buckets, trace: seq<Event>, key: Key)
    requires cfg.Valid() && cfg.burst >= 1.0
    requires OnlyRequestsOf(trace, key) && Spaced(trace, 60.0 / cfg.rpm)
    requires key in buckets ==> buckets[key].tokens >= 0.0
    requires key in buckets && trace != [] ==> trace[0].at >= buckets[key].last + 60.0 / cfg.rpm
    ensures forall i | 0 <= i < |Decisions(cfg, buckets, trace)| :: Decisions(cfg, buckets, trace)[i].ok
    decreases |trace|
  {
    if trace != [] {
      var e := trace[0];
      if key in buckets { MinuteShareIsOneToken(cfg, e.at - buckets[key].last); }
      var tail := trace[1..];
      forall i | 0 < i < |tail| ensures tail[i].at >= tail[i - 1].at + 60.0 / cfg.rpm {
        assert tail[i] == trace[i + 1] && tail[i - 1] == trace[i];
      }
      SpacedRequestsPass(cfg, Next(cfg, buckets, e), tail, key);
    }
  }

  lemma MinuteShareIsOneToken(cfg: Config, dt: real)
    requires cfg.Valid() && dt >= 60.0 / cfg.rpm
    ensures Gain(cfg, dt) >= 1.0
  {
    var share := 60.0 / cfg.rpm;
    assert share * cfg.rpm == 60.0;
    GainGrows(cfg, share, dt);
  }

  lemma UnsweptPoliteClients(cfg: Config, trace: seq<Event>, key: Key)
    requires cfg.Valid() && cfg.burst >= 1.0
    requires forall i | 0 <= i < |trace| :: trace[i].Request?
    requires Spaced(OfKey(trace, key), 60.0 / cfg.rpm)
    ensures forall i | 0 <= i < |DecisionsFor(Decisions(cfg, map[], trace), key)| ::
              DecisionsFor(Decisions(cfg, map[], trace), key)[i].ok
  {
    KeysAreIndependent(cfg, map[], map[], trace, key);
    OfKeyIsOwn(trace, key);
    SpacedRequestsPass(cfg, map[], OfKey(trace, key), key);
  }

  /** With room for one token, a client that waits 60/rpm seconds between requests is never
      refused, whatever other clients do and whenever patient sweeps run. */
  lemma PoliteClientsAreNeverRefused(cfg: Config, trace: seq<Event>, key: Key)
    requires cfg.Valid() && cfg.burst >= 1.0 && Ordered(trace) && SweepsPatient(cfg, trace)
    requires Spaced(OfKey(NoSweeps(trace), key), 60.0 / cfg.rpm)
    ensures forall i | 0 <= i < |DecisionsFor(Decisions(cfg, map[], trace), key)| ::
              DecisionsFor(Decisions(cfg, map[], trace), key)[i].ok
  {
    SweepingIsInvisible(cfg, trace);
    NoSweepsLeavesRequests(trace, Earliest(trace));
    UnsweptPoliteClients(cfg, NoSweeps(trace), key);
  }

  lemma {:induction false} OfKeyIsOwn(trace: seq<Event>, key: Key)
    requires forall i | 0 <= i < |trace| :: trace[i].Request?
    ensures OnlyRequestsOf(OfKey(trace, key), key)
  {
    if trace != [] {
      assert forall i | 0 <= i < |trace[1..]| :: trace[1..][i] == trace[i + 1];
      OfKeyIsOwn(trace[1..], key);
    }
  }

  // ---------------------------------------------------------------- the limiter object

  lemma OneDecision(cfg: Config, buckets: Buckets, e: Event)
    requires e.Request?
    ensures Decisions(cfg, buckets, [e]) == [Decision(e.key, e.at, Taken(cfg, Find(cfg, buckets, e.key, e.at), e.at).1)]
  {
  }

  class RateLimiter {
    const cfg: Config
    const whitelist: set<string>
    const bucketKey: string -> Key        // collapses an IPv6 client to its /64
    var buckets: Buckets

    constructor (cfg: Config, whitelist: set<string>, bucketKey: string -> Key)
      ensures this.cfg == cfg && this.whitelist == whitelist && this.bucketKey == bucketKey && buckets == map[]
    {
      this.cfg, this.whitelist, this.bucketKey, buckets := cfg, whitelist, bucketKey, map[];
    }

    method AllowKey(ip: string, attested: bool, now: real) returns (ok: bool)
      modifies this
      ensures attested && ip in whitelist ==> ok && buckets == old(buckets)
      ensures !(attested && ip in whitelist) ==>
        && buckets == Next(cfg, old(buckets), Request(bucketKey(ip), now))
        && Decisions(cfg, old(buckets), [Request(bucketKey(ip), now)]) == [Decision(bucketKey(ip), now, ok)]
    {
      if attested && ip in whitelist {
        return true;
      }
      var key := bucketKey(ip);
      var b := if key in buckets then buckets[key] else Bucket(cfg.burst, now);
      var elapsed := now - b.last;
      var tokens := b.tokens + elapsed * cfg.rpm / 60.0;
      if tokens > cfg.burst {
        tokens := cfg.burst;
      }
      assert tokens == Level(cfg, b, now);
      ok := tokens >= 1.0;
      if ok {
        tokens := tokens - 1.0;
      }
      assert (Bucket(tokens, now), ok) == Taken(cfg, Find(cfg, buckets, key, now), now);
      buckets := buckets[key := Bucket(tokens, now)];
      OneDecision(cfg, old(buckets), Request(key, now));
    }

    /** One pass over the buckets, in whatever order the map yields them. */
    method SweepIdle(now: real, idle: real) returns (n: nat)
      modifies this
      ensures buckets == map k | k in old(buckets) && now - old(buckets)[k].last < idle :: old(buckets)[k]
      ensures n == |old(buckets)| - |buckets|
    {
      ghost var was := buckets;
      var todo := buckets.Keys;
      n := 0;
      while todo != {}
        invariant todo <= was.Keys
        invariant buckets == map k | k in was && (k in todo || !Idle(was[k], now, idle)) :: was[k]
        invariant n == |was| - |buckets|
      {
        var k :| k in todo;
        if Idle(buckets[k], now, idle) {
          assert (buckets - {k}).Keys == buckets.Keys - {k};
          buckets := buckets - {k};
          n := n + 1;
        }
        todo := todo - {k};
      }
    }
  }

  /** A whole `sweepIdle` pass is a sequence of single-bucket sweeps. */
  lemma {:induction false} PassIsSweeps(cfg: Config, buckets: Buckets, keys: seq<Key>, now: real, idle: real)
    requires forall k | k in buckets :: k in keys
    ensures StateAfter(cfg, buckets, SweepAll(keys, now, idle))
            == map k | k in buckets && now - buckets[k].last < idle :: buckets[k]
  {
    SweepsRemoveIdle(cfg, buckets, keys, now, idle);
  }

  function SweepAll(keys: seq<Key>, now: real, idle: real): seq<Event> {
    if keys == [] then [] else [Sweep(keys[0], now, idle)] + SweepAll(keys[1..], now, idle)
  }

  lemma {:induction false} SweepsRemoveIdle(cfg: Config, buckets: Buckets, keys: seq<Key>, now: real, idle: real)
    ensures StateAfter(cfg, buckets, SweepAll(keys, now, idle))
            == map k | k in buckets && !(k in keys && Idle(buckets[k], now, idle)) :: buckets[k]
    decreases |keys|
  {
    if keys != [] {
      var next := Swept(buckets, keys[0], now, idle);
      SweepsRemoveIdle(cfg, next, keys[1..], now, idle);
      assert SweepAll(keys, now, idle)[1..] == SweepAll(keys[1..], now, idle);
    }
  }
}

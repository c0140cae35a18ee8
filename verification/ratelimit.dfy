/** The token-bucket limiter: one bucket per client key, evicted when idle. Times are
    nanoseconds; rates and token counts are real numbers. */
module RateLimit {

  datatype Bucket = Bucket(tokens: real, last: int)

  type Buckets = map<string, Bucket>

  const MAX_KEYS := 100_000

  datatype Params = Params(perWindow: int, window: int)

  /** A limiter that limits: the parameters New turns into a positive rate. */
  predicate Limits(p: Params) {
    p.perWindow > 0 && p.window > 0
  }

  function Seconds(d: int): real {
    d as real / 1_000_000_000.0
  }

  function Rate(p: Params): real {
    if Limits(p) then p.perWindow as real / Seconds(p.window) else 0.0
  }

  function Burst(p: Params): real {
    p.perWindow as real
  }

  /** Tokens gained in `d` nanoseconds. */
  function Gain(p: Params, d: int): real {
    Seconds(d) * Rate(p)
  }

  function Min(x: real, y: real): real {
    if x < y then x else y
  }

  // ------------------------------------------------------------ arithmetic of Gain

  lemma RatePositive(p: Params)
    requires Limits(p)
    ensures Rate(p) > 0.0 && Burst(p) >= 1.0
  {
    var s := Seconds(p.window);
    assert s > 0.0;
    assert p.perWindow as real / s > 0.0;
  }

  lemma GainAdds(p: Params, d: int, e: int)
    ensures Gain(p, d) + Gain(p, e) == Gain(p, d + e)
  {
    var r := Rate(p);
    assert Seconds(d + e) == Seconds(d) + Seconds(e);
    assert (Seconds(d) + Seconds(e)) * r == Seconds(d) * r + Seconds(e) * r;
  }

  lemma GainNonNegative(p: Params, d: int)
    requires Limits(p) && d >= 0
    ensures Gain(p, d) >= 0.0
  {
    RatePositive(p);
    assert Seconds(d) >= 0.0;
  }

  /** A whole window refills the whole burst. */
  lemma WindowRefills(p: Params, d: int)
    requires Limits(p)
    ensures Gain(p, p.window) == Burst(p)
    ensures d >= p.window ==> Gain(p, d) >= Burst(p)
  {
    var w := Seconds(p.window);
    assert w > 0.0;
    assert w * (p.perWindow as real / w) == p.perWindow as real;
    if d >= p.window {
      GainAdds(p, p.window, d - p.window);
      GainNonNegative(p, d - p.window);
    }
  }

  // --------------------------------------------------------------- one bucket alone

  function NewBucket(p: Params, now: int): Bucket {
    Bucket(Burst(p) - 1.0, now)
  }

  function Refilled(p: Params, b: Bucket, now: int): real {
    Min(Burst(p), b.tokens + Gain(p, now - b.last))
  }

  /** One event against one bucket that is never evicted. */
  function SoloStep(p: Params, b: Bucket, now: int): (Bucket, bool) {
    var t := Refilled(p, b, now);
    if t < 1.0 then (Bucket(t, now), false) else (Bucket(t - 1.0, now), true)
  }

  function SoloNext(p: Params, ob: map<string, Bucket>, key: string, now: int): (Bucket, bool) {
    if key in ob then SoloStep(p, ob[key], now) else (NewBucket(p, now), true)
  }

  // -------------------------------------------------------------------- the limiter

  /** The test for eviction: idle for `burst / rate`, which is exactly the window. */
  predicate Idle(p: Params, b: Bucket, now: int) {
    now - b.last >= p.window
  }

  lemma IdleIsTheWindow(p: Params)
    requires Limits(p)
    ensures Rate(p) != 0.0 && (Burst(p) / Rate(p) * 1_000_000_000.0) == p.window as real
  {
    RatePositive(p);
    var n, w, r := p.perWindow as real, Seconds(p.window), Rate(p);
    assert w > 0.0 && r * w == n by {
      assert n / w * w == n;
    }
    assert n / r == w by {
      assert r * w / r == w;
    }
  }

  function Evicted(p: Params, m: Buckets, now: int): Buckets {
    map k | k in m && !Idle(p, m[k], now) :: m[k]
  }

  /** One call of Allow. */
  function AllowStep(p: Params, m: Buckets, key: string, now: int): (Buckets, bool) {
    if !Limits(p) then (m, true)
    else if key !in m then
      var kept := if |m| >= MAX_KEYS then Evicted(p, m, now) else m;
      (kept[key := NewBucket(p, now)], true)
    else
      var (b, ok) := SoloStep(p, m[key], now);
      (m[key := b], ok)
  }

  class Limiter {
    var buckets: Buckets
    const rate: real
    const burst: real
    const params: Params

    ghost predicate Valid() {
      rate == Rate(params) && burst == Burst(params)
    }

    constructor (perWindow: int, window: int)
      ensures Valid() && params == Params(perWindow, window) && buckets == map[]
    {
      params := Params(perWindow, window);
      rate := if perWindow > 0 && window > 0 then perWindow as real / Seconds(window) else 0.0;
      burst := perWindow as real;
      buckets := map[];
    }

    method Allow(key: string, now: int) returns (ok: bool)
      requires Valid()
      modifies this`buckets
      ensures (buckets, ok) == AllowStep(params, old(buckets), key, now)
      ensures params.perWindow <= 0 || params.window <= 0 ==> ok && buckets == old(buckets)
    {
      if Limits(params) { RatePositive(params); }
      if rate <= 0.0 { return true; }
      if key !in buckets {
        if |buckets| >= MAX_KEYS {
          Evict(now);
        }
        buckets := buckets[key := Bucket(burst - 1.0, now)];
        return true;
      }
      var b := buckets[key];
      var tokens := Min(burst, b.tokens + Seconds(now - b.last) * rate);
      assert tokens == Refilled(params, b, now);
      buckets := buckets[key := Bucket(tokens, now)];
      if tokens < 1.0 { return false; }
      buckets := buckets[key := Bucket(tokens - 1.0, now)];
      assert buckets == old(buckets)[key := Bucket(tokens - 1.0, now)];
      ok := true;
    }

    /** Drops exactly the buckets that have been idle for at least the window. */
    method Evict(now: int)
      requires Valid() && Limits(params)
      modifies this`buckets
      ensures buckets == Evicted(params, old(buckets), now)
    {
      IdleIsTheWindow(params);
      var idle := (burst / rate * 1_000_000_000.0).Floor;
      var left := buckets.Keys;
      while left != {}
        invariant left <= old(buckets).Keys
        invariant forall k :: k in buckets <==> k in old(buckets) && (k in left || !Idle(params, old(buckets)[k], now))
        invariant forall k :: k in buckets ==> buckets[k] == old(buckets)[k]
      {
        var k :| k in left;
        if now - buckets[k].last >= idle {
          buckets := buckets - {k};
        }
        left := left - {k};
      }
    }
  }

  // ---------------------------------------------------------- refinement over traces

  datatype Event = Event(key: string, at: int)

  predicate Chronological(es: seq<Event>) {
    forall i, j :: 0 <= i < j < |es| ==> es[i].at <= es[j].at
  }

  /** The buckets and the answers after the events, with eviction. */
  function Run(p: Params, es: seq<Event>): (Buckets, seq<bool>) {
    if |es| == 0 then (map[], [])
    else
      var (m, answers) := Run(p, es[..|es| - 1]);
      var e := es[|es| - 1];
      var (m', ok) := AllowStep(p, m, e.key, e.at);
      (m', answers + [ok])
  }

  /** The times of one key's own events. */
  function Own(es: seq<Event>, key: string): seq<int> {
    if |es| == 0 then []
    else
      var e := es[|es| - 1];
      Own(es[..|es| - 1], key) + (if e.key == key then [e.at] else [])
  }

  /** The answers that one key's events got. */
  function OwnAnswers(es: seq<Event>, answers: seq<bool>, key: string): seq<bool>
    requires |answers| == |es|
  {
    if |es| == 0 then []
    else
      OwnAnswers(es[..|es| - 1], answers[..|es| - 1], key) +
      (if es[|es| - 1].key == key then [answers[|es| - 1]] else [])
  }

  /** A single bucket, never evicted, run on one key's events. */
  function Solo(p: Params, ts: seq<int>): (map<string, Bucket>, seq<bool>)
    ensures Solo(p, ts).0.Keys == if |ts| == 0 then {} else {""}
    ensures |Solo(p, ts).1| == |ts|
  {
    if |ts| == 0 then (map[], [])
    else
      var (ob, answers) := Solo(p, ts[..|ts| - 1]);
      var (b, ok) := if !Limits(p) then (NewBucket(p, ts[|ts| - 1]), true) else SoloNext(p, ob, "", ts[|ts| - 1]);
      (map["" := b], answers + [ok])
  }

  lemma {:induction false} RunLength(p: Params, es: seq<Event>)
    ensures |Run(p, es).1| == |es|
  {
    if |es| > 0 { RunLength(p, es[..|es| - 1]); }
  }

  /** What relates a key's entry in the limiter to its never-evicted bucket: they are the
      same, or the entry was evicted and the bucket has refilled by `now`. */
  ghost predicate Agrees(p: Params, m: Buckets, ob: map<string, Bucket>, key: string, now: int) {
    && (key in m ==> "" in ob && m[key] == ob[""])
    && ("" in ob ==> 0.0 <= ob[""].tokens <= Burst(p) && ob[""].last <= now)
    && ("" in ob && key !in m ==> ob[""].tokens + Gain(p, now - ob[""].last) >= Burst(p))
  }

  lemma AgreesLater(p: Params, m: Buckets, ob: map<string, Bucket>, key: string, now: int, later: int)
    requires Limits(p) && Agrees(p, m, ob, key, now) && now <= later
    ensures Agrees(p, m, ob, key, later)
  {
    if "" in ob {
      GainAdds(p, now - ob[""].last, later - now);
      GainNonNegative(p, later - now);
    }
  }

  lemma SoloStepBounds(p: Params, b: Bucket, now: int)
    requires Limits(p) && 0.0 <= b.tokens && b.last <= now
    ensures 0.0 <= SoloStep(p, b, now).0.tokens <= Burst(p) && SoloStep(p, b, now).0.last == now
  {
    RatePositive(p);
    GainNonNegative(p, now - b.last);
  }

  /** The limiter and the lone bucket answer an event of the key alike. */
  lemma OwnStep(p: Params, m: Buckets, ob: map<string, Bucket>, key: string, now: int)
    requires Limits(p) && Agrees(p, m, ob, key, now)
    ensures AllowStep(p, m, key, now).1 == SoloNext(p, ob, "", now).1
    ensures Agrees(p, AllowStep(p, m, key, now).0, map["" := SoloNext(p, ob, "", now).0], key, now)
  {
    RatePositive(p);
    if "" in ob { SoloStepBounds(p, ob[""], now); }
  }

  /** Events of other keys, and the evictions they cause, do not disturb the relation. */
  lemma OtherStep(p: Params, m: Buckets, ob: map<string, Bucket>, key: string, other: string, now: int)
    requires Limits(p) && Agrees(p, m, ob, key, now) && other != key
    ensures Agrees(p, AllowStep(p, m, other, now).0, ob, key, now)
  {
    if key in m && Idle(p, m[key], now) {
      WindowRefills(p, now - m[key].last);
    }
  }

  lemma {:induction false} Simulates(p: Params, es: seq<Event>, key: string)
    requires Limits(p) && Chronological(es)
    ensures |Run(p, es).1| == |es|
    ensures OwnAnswers(es, Run(p, es).1, key) == Solo(p, Own(es, key)).1
    ensures |es| > 0 ==> Agrees(p, Run(p, es).0, Solo(p, Own(es, key)).0, key, es[|es| - 1].at)
  {
    if |es| > 0 {
      var init, e := es[..|es| - 1], es[|es| - 1];
      Simulates(p, init, key);
      RunLength(p, es);
      var (m, answers) := Run(p, init);
      var ob := Solo(p, Own(init, key)).0;
      assert Run(p, es).1[..|es| - 1] == answers;
      if |init| > 0 {
        assert init[|init| - 1] == es[|es| - 2];
        AgreesLater(p, m, ob, key, init[|init| - 1].at, e.at);
      }
      if e.key == key {
        OwnStep(p, m, ob, key, e.at);
        assert Own(es, key) == Own(init, key) + [e.at];
        assert Own(es, key)[..|Own(es, key)| - 1] == Own(init, key);
      } else {
        OtherStep(p, m, ob, key, e.key, e.at);
        assert Own(es, key) == Own(init, key);
      }
    }
  }

  /** Refinement: on any trace with a non-decreasing clock, the answers that one key gets
      are those of a single bucket that is never evicted and sees that key's events only.
      Eviction and the other keys cannot be observed. A disabled limiter says yes. */
  lemma LimiterRefinesSolo(p: Params, es: seq<Event>, key: string)
    requires Chronological(es)
    ensures |Run(p, es).1| == |es|
    ensures OwnAnswers(es, Run(p, es).1, key) == Solo(p, Own(es, key)).1
    ensures p.perWindow <= 0 || p.window <= 0 ==> forall i :: 0 <= i < |es| ==> Run(p, es).1[i]
  {
    if Limits(p) { Simulates(p, es, key); } else { Disabled(p, es, key); }
  }

  lemma {:induction false} Disabled(p: Params, es: seq<Event>, key: string)
    requires !Limits(p)
    ensures |Run(p, es).1| == |es| && forall i :: 0 <= i < |es| ==> Run(p, es).1[i]
    ensures OwnAnswers(es, Run(p, es).1, key) == Solo(p, Own(es, key)).1
  {
    if |es| > 0 {
      var init, e := es[..|es| - 1], es[|es| - 1];
      Disabled(p, init, key);
      assert Run(p, es).1[..|es| - 1] == Run(p, init).1;
      if e.key == key {
        assert Own(es, key)[..|Own(es, key)| - 1] == Own(init, key);
      } else {
        assert Own(es, key) == Own(init, key);
      }
    }
  }

  // ------------------------------------------------------------------------- memory

  /** The keys seen in the window that ends with the last event. */
  function Recent(p: Params, es: seq<Event>): set<string>
    requires |es| > 0
  {
    set i | 0 <= i < |es| && es[i].at > es[|es| - 1].at - p.window :: es[i].key
  }

  /** The most distinct keys seen in any one window, windows ending at events. */
  function Peak(p: Params, es: seq<Event>): nat {
    if |es| == 0 then 0
    else var before, here := Peak(p, es[..|es| - 1]), |Recent(p, es)|; if before < here then here else before
  }

  /** Each bucket was last touched by an event of its key. */
  ghost predicate Stamped(m: Buckets, es: seq<Event>) {
    forall k :: k in m ==> exists i :: 0 <= i < |es| && es[i].key == k && es[i].at == m[k].last
  }

  lemma {:induction false} SetSizes<T>(a: set<T>, b: set<T>)
    requires a <= b
    ensures |a| <= |b|
    decreases a
  {
    if a != {} {
      var x :| x in a;
      SetSizes(a - {x}, b - {x});
    }
  }

  lemma StampedStep(p: Params, es: seq<Event>)
    requires |es| > 0 && Stamped(Run(p, es[..|es| - 1]).0, es[..|es| - 1])
    ensures Stamped(Run(p, es).0, es)
  {
    var init, e, n := es[..|es| - 1], es[|es| - 1], |es| - 1;
    var m, m' := Run(p, init).0, Run(p, es).0;
    forall k | k in m' ensures exists i :: 0 <= i < |es| && es[i].key == k && es[i].at == m'[k].last {
      if k == e.key && Limits(p) {
        assert es[n].key == k && es[n].at == m'[k].last;
      } else {
        var i :| 0 <= i < |init| && init[i].key == k && init[i].at == m[k].last;
        assert es[i] == init[i];
      }
    }
  }

  /** After an eviction every bucket belongs to a key seen within the window. */
  lemma EvictedFit(p: Params, es: seq<Event>, m: Buckets)
    requires |es| > 0 && p.window > 0 && Stamped(m, es)
    requires forall k :: k in m ==> es[|es| - 1].at - m[k].last < p.window
    ensures |m| <= |Recent(p, es)|
  {
    forall k | k in m ensures k in Recent(p, es) {
      var i :| 0 <= i < |es| && es[i].key == k && es[i].at == m[k].last;
    }
    SetSizes(m.Keys, Recent(p, es));
    assert |m| == |m.Keys|;
  }

  lemma PeakGrows(p: Params, es: seq<Event>)
    requires |es| > 0
    ensures Peak(p, es) >= |Recent(p, es)| && Peak(p, es) >= Peak(p, es[..|es| - 1])
  {
    hide Recent;
  }

  lemma LastStep(p: Params, es: seq<Event>)
    requires |es| > 0
    ensures var e := es[|es| - 1]; Run(p, es).0 == AllowStep(p, Run(p, es[..|es| - 1]).0, e.key, e.at).0
  {
    hide AllowStep;
  }

  /** The number of buckets never exceeds the larger of the cap and the peak number of
      distinct keys seen within one window, whatever the trace. */
  lemma {:induction false} BoundedMemory(p: Params, es: seq<Event>)
    requires p.perWindow > 0 && p.window > 0
    ensures Stamped(Run(p, es).0, es)
    ensures |Run(p, es).0| <= 100_000 || |Run(p, es).0| <= Peak(p, es)
  {
    if |es| > 0 {
      hide Run, AllowStep, Stamped, Peak, Recent, Limits;
      var init, e := es[..|es| - 1], es[|es| - 1];
      BoundedMemory(p, init);
      StampedStep(p, es);
      PeakGrows(p, es);
      LastStep(p, es);
      var m, m' := Run(p, init).0, Run(p, es).0;
      AllowKeys(p, m, e.key, e.at);
      if e.key !in m && |m| >= MAX_KEYS {
        EvictedFit(p, es, m');
      } else {
        InsertSize(m, e.key, m');
      }
    }
  }

  lemma AllowKeys(p: Params, m: Buckets, key: string, now: int)
    requires Limits(p)
    ensures var m' := AllowStep(p, m, key, now).0;
            if key !in m && |m| >= MAX_KEYS then forall k :: k in m' ==> now - m'[k].last < p.window
            else key in m' && m'.Keys == m.Keys + {key}
    ensures key in AllowStep(p, m, key, now).0 && AllowStep(p, m, key, now).0[key].last == now
  {
  }

  lemma InsertSize(m: Buckets, k: string, m': Buckets)
    requires k in m' && m'.Keys == m.Keys + {k}
    ensures |m'| == if k in m then |m| else |m| + 1
  {
    assert |m'| == |m'.Keys| && |m| == |m.Keys|;
    if k in m { assert m'.Keys == m.Keys; }
  }
}

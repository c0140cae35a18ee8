/** The exact envelope of one key's bucket: which sequences of events are allowed. */
module Envelope {
  import opened RateLimit

  predicate Sorted(ts: seq<int>) {
    forall i, j :: 0 <= i < j < |ts| ==> ts[i] <= ts[j]
  }

  /** The times of the events that were allowed. */
  function Allowed(p: Params, ts: seq<int>): seq<int> {
    if |ts| == 0 then []
    else
      Allowed(p, ts[..|ts| - 1]) + (if Solo(p, ts).1[|ts| - 1] then [ts[|ts| - 1]] else [])
  }

  /** The tokens there would be at `t` if only the allowed events had happened. */
  function Level(p: Params, al: seq<int>, t: int): real {
    if |al| == 0 then Burst(p)
    else
      var a := al[|al| - 1];
      Min(Burst(p), Level(p, al[..|al| - 1], a) - 1.0 + Gain(p, t - a))
  }

  lemma LevelLater(p: Params, al: seq<int>, t: int, u: int)
    requires Limits(p) && t <= u && (|al| > 0 ==> al[|al| - 1] <= t)
    ensures Level(p, al, u) == Min(Burst(p), Level(p, al, t) + Gain(p, u - t))
  {
    GainNonNegative(p, u - t);
    if |al| > 0 {
      var a := al[|al| - 1];
      GainAdds(p, t - a, u - t);
    }
  }

  /** The level is at least `x` exactly when it is so seen from every allowed event. */
  lemma {:induction false} LevelAtLeast(p: Params, al: seq<int>, t: int, x: real)
    ensures Level(p, al, t) >= x <==>
              && Burst(p) >= x
              && forall i :: 0 <= i < |al| ==> Burst(p) + Gain(p, t - al[i]) - (|al| - i) as real >= x
  {
    var n := |al|;
    if n > 0 {
      var init, a := al[..n - 1], al[n - 1];
      var y := x + 1.0 - Gain(p, t - a);
      LevelAtLeast(p, init, a, y);
      forall i | 0 <= i < n - 1
        ensures (Burst(p) + Gain(p, a - init[i]) - (|init| - i) as real >= y) <==>
                (Burst(p) + Gain(p, t - al[i]) - (n - i) as real >= x)
      {
        GainAdds(p, t - a, a - al[i]);
      }
      assert al[n - 1] == a && (n - (n - 1)) as real == 1.0;
      if Level(p, al, t) >= x {
        forall i | 0 <= i < n ensures Burst(p) + Gain(p, t - al[i]) - (n - i) as real >= x {
          if i < n - 1 { assert Burst(p) + Gain(p, a - init[i]) - (|init| - i) as real >= y; }
        }
      }
    }
  }

  /** `b` holds what the allowed events `al` left in it, as of its last look. */
  ghost predicate Holds(p: Params, b: Bucket, al: seq<int>) {
    && (|al| > 0 ==> al[|al| - 1] <= b.last)
    && forall t :: b.last <= t ==> Refilled(p, b, t) == Level(p, al, t)
  }

  /** One event: it is allowed exactly when the level is at least one token. */
  lemma HoldsStep(p: Params, b: Bucket, al: seq<int>, now: int)
    requires Limits(p) && Holds(p, b, al) && b.last <= now
    ensures var (b', ok) := SoloStep(p, b, now);
            (ok <==> Level(p, al, now) >= 1.0) && Holds(p, b', if ok then al + [now] else al)
  {
    var (b', ok) := SoloStep(p, b, now);
    var level := Level(p, al, now);
    assert Refilled(p, b, now) == level;
    var al' := if ok then al + [now] else al;
    forall t | now <= t ensures Refilled(p, b', t) == Level(p, al', t) {
      if ok { assert al'[..|al'| - 1] == al; } else { LevelLater(p, al, now, t); }
    }
  }

  lemma HoldsFirst(p: Params, now: int)
    requires Limits(p)
    ensures Level(p, [], now) >= 1.0 && Holds(p, NewBucket(p, now), [now])
  {
    RatePositive(p);
    assert [now][..0] == [];
  }

  /** The bucket holds what the allowed events left in it: the refused ones, and the
      instants at which it happened to be looked at, make no difference. */
  lemma {:induction false} BucketIsLevel(p: Params, ts: seq<int>)
    requires Limits(p) && Sorted(ts)
    ensures |ts| > 0 ==>
              && "" in Solo(p, ts).0 && Solo(p, ts).0[""].last == ts[|ts| - 1]
              && Holds(p, Solo(p, ts).0[""], Allowed(p, ts))
              && (Solo(p, ts).1[|ts| - 1] <==> Level(p, Allowed(p, ts[..|ts| - 1]), ts[|ts| - 1]) >= 1.0)
  {
    hide Holds, Level, SoloStep;
    if |ts| > 0 {
      var init, now := ts[..|ts| - 1], ts[|ts| - 1];
      BucketIsLevel(p, init);
      if |init| == 0 {
        HoldsFirst(p, now);
        assert Allowed(p, ts) == [now];
      } else {
        assert init[|init| - 1] <= now;
        HoldsStep(p, Solo(p, init).0[""], Allowed(p, init), now);
        SoloDates(p, Solo(p, init).0[""], now);
        assert Allowed(p, init) + [] == Allowed(p, init);
      }
    }
  }

  lemma SoloDates(p: Params, b: Bucket, now: int)
    ensures SoloStep(p, b, now).0.last == now
  {
  }

  /** How many of the allowed events happened at `s` or later. */
  function CountFrom(al: seq<int>, s: int): nat {
    if |al| == 0 then 0 else CountFrom(al[..|al| - 1], s) + (if al[|al| - 1] >= s then 1 else 0)
  }

  lemma {:induction false} CountFromAll(al: seq<int>, s: int)
    requires forall i :: 0 <= i < |al| ==> al[i] >= s
    ensures CountFrom(al, s) == |al|
  {
    if |al| > 0 { CountFromAll(al[..|al| - 1], s); }
  }

  lemma {:induction false} CountFromIndex(al: seq<int>, i: nat)
    requires Sorted(al) && i < |al|
    ensures CountFrom(al, al[i]) >= |al| - i
    ensures (forall j :: 0 <= j < i ==> al[j] < al[i]) ==> CountFrom(al, al[i]) == |al| - i
  {
    var init := al[..|al| - 1];
    if i < |al| - 1 {
      assert init[i] == al[i];
      CountFromIndex(init, i);
    } else if forall j :: 0 <= j < i ==> al[j] < al[i] {
      NoneFrom(init, al[i]);
    }
  }

  lemma {:induction false} NoneFrom(al: seq<int>, s: int)
    requires forall j :: 0 <= j < |al| ==> al[j] < s
    ensures CountFrom(al, s) == 0
  {
    if |al| > 0 { NoneFrom(al[..|al| - 1], s); }
  }

  /** The first of the events that happened at the same time as event `i`. */
  lemma {:induction false} FirstAt(al: seq<int>, i: nat) returns (f: nat)
    requires Sorted(al) && i < |al|
    ensures f <= i && al[f] == al[i] && forall j :: 0 <= j < f ==> al[j] < al[f]
  {
    if i > 0 && al[i - 1] == al[i] { f := FirstAt(al, i - 1); } else { f := i; }
  }

  lemma {:induction false} AllowedSorted(p: Params, ts: seq<int>)
    requires Sorted(ts)
    ensures Sorted(Allowed(p, ts))
    ensures forall a :: a in Allowed(p, ts) ==> exists i :: 0 <= i < |ts| && ts[i] == a
  {
    if |ts| > 0 {
      var init := ts[..|ts| - 1];
      AllowedSorted(p, init);
      forall a | a in Allowed(p, ts) ensures exists i :: 0 <= i < |ts| && ts[i] == a {
        if a in Allowed(p, init) {
          var i :| 0 <= i < |init| && init[i] == a;
          assert ts[i] == a;
        } else {
          assert ts[|ts| - 1] == a;
        }
      }
      forall i, j | 0 <= i < j < |Allowed(p, ts)| ensures Allowed(p, ts)[i] <= Allowed(p, ts)[j] {
        assert Allowed(p, ts)[i] in Allowed(p, init);
      }
    }
  }

  /** Counting the allowed events from a time on is counting from its first index. */
  lemma CountsAreIndices(p: Params, al: seq<int>, t: int)
    requires Sorted(al)
    ensures (forall i :: 0 <= i < |al| ==> Burst(p) + Gain(p, t - al[i]) - (|al| - i) as real >= 1.0) <==>
            (forall s :: s in al ==> (CountFrom(al, s) + 1) as real <= Burst(p) + Gain(p, t - s))
  {
    hide Burst, Gain;
    if forall i :: 0 <= i < |al| ==> Burst(p) + Gain(p, t - al[i]) - (|al| - i) as real >= 1.0 {
      forall s | s in al ensures (CountFrom(al, s) + 1) as real <= Burst(p) + Gain(p, t - s) {
        var i :| 0 <= i < |al| && al[i] == s;
        var f := FirstAt(al, i);
        CountFromIndex(al, f);
      }
    }
    if forall s :: s in al ==> (CountFrom(al, s) + 1) as real <= Burst(p) + Gain(p, t - s) {
      forall i | 0 <= i < |al| ensures Burst(p) + Gain(p, t - al[i]) - (|al| - i) as real >= 1.0 {
        assert al[i] in al;
        CountFromIndex(al, i);
      }
    }
  }

  /** perWindow + perWindow * d / window: the bound in the settings' own numbers. */
  function Quota(p: Params, d: int): real
    requires p.window > 0
  {
    p.perWindow as real + p.perWindow as real * d as real / p.window as real
  }

  lemma QuotaIs(p: Params, d: int)
    requires p.perWindow > 0 && p.window > 0
    ensures Limits(p) && Burst(p) + Gain(p, d) == Quota(p, d)
  {
    var n, w, x, g := p.perWindow as real, p.window as real, d as real, 1_000_000_000.0;
    assert n / (w / g) == n * g / w by {
      assert n / (w / g) * (w / g) == n;
      assert n * g / w * (w / g) == n;
    }
    assert x / g * (n * g / w) == n * x / w;
  }

  /** The exact envelope. The last of the events `ts` of a key is allowed if and only if,
      for the time `s` of every event allowed before it, the allowed events from `s` on, and
      itself, are at most perWindow + perWindow * (t - s) / window. */
  lemma ExactEnvelope(p: Params, ts: seq<int>)
    requires p.perWindow > 0 && p.window > 0 && Sorted(ts) && |ts| > 0
    ensures var t, al := ts[|ts| - 1], Allowed(p, ts[..|ts| - 1]);
            Solo(p, ts).1[|ts| - 1] <==>
              forall s :: s in al ==> (CountFrom(al, s) + 1) as real <= Quota(p, t - s)
  {
    hide Burst, Gain, Level, Solo, Allowed, Holds, CountFrom;
    var t, al := ts[|ts| - 1], Allowed(p, ts[..|ts| - 1]);
    BucketIsLevel(p, ts);
    AllowedSorted(p, ts[..|ts| - 1]);
    LevelAtLeast(p, al, t, 1.0);
    CountsAreIndices(p, al, t);
    RatePositive(p);
    hide Quota;
    forall s | s in al ensures Burst(p) + Gain(p, t - s) == Quota(p, t - s) { QuotaIs(p, t - s); }
  }

  /** The same for the limiter itself, with its other keys and its evictions: an event is
      allowed exactly when its own key's envelope admits it. */
  lemma LimiterEnvelope(p: Params, es: seq<Event>)
    requires p.perWindow > 0 && p.window > 0 && Chronological(es) && |es| > 0
    ensures |Run(p, es).1| == |es|
    ensures var e := es[|es| - 1];
            var al := Allowed(p, Own(es[..|es| - 1], e.key));
            Run(p, es).1[|es| - 1] <==>
              forall s :: s in al ==> (CountFrom(al, s) + 1) as real <= Quota(p, e.at - s)
  {
    hide Burst, Gain, Limits, Allowed, CountFrom, Quota;
    var e, init := es[|es| - 1], es[..|es| - 1];
    var ts := Own(es, e.key);
    LimiterRefinesSolo(p, es, e.key);
    OwnSorted(es, e.key);
    assert ts == Own(init, e.key) + [e.at] && ts[..|ts| - 1] == Own(init, e.key);
    ExactEnvelope(p, ts);
    var own := OwnAnswers(es, Run(p, es).1, e.key);
    assert own[|own| - 1] == Run(p, es).1[|es| - 1];
  }

  lemma {:induction false} OwnSorted(es: seq<Event>, key: string)
    requires Chronological(es)
    ensures Sorted(Own(es, key))
    ensures forall t :: t in Own(es, key) ==> t <= es[|es| - 1].at
    ensures |es| == 0 ==> Own(es, key) == []
  {
    if |es| > 0 {
      var init := es[..|es| - 1];
      OwnSorted(init, key);
      if |init| > 0 { assert init[|init| - 1].at <= es[|es| - 1].at; }
      forall i, j | 0 <= i < j < |Own(es, key)| ensures Own(es, key)[i] <= Own(es, key)[j] {
        assert Own(es, key)[i] in Own(init, key);
      }
    }
  }

  /** Of events of one key at one instant exactly the first perWindow are allowed, for every
      positive setting, whatever the other keys do. */
  lemma BurstIsExact(p: Params, es: seq<Event>, key: string, t: int)
    requires p.perWindow > 0 && p.window > 0 && Chronological(es)
    requires forall u :: u in Own(es, key) ==> u == t
    ensures |Run(p, es).1| == |es| && |OwnAnswers(es, Run(p, es).1, key)| == |Own(es, key)|
    ensures forall i :: 0 <= i < |Own(es, key)| ==> (OwnAnswers(es, Run(p, es).1, key)[i] <==> i < p.perWindow)
  {
    LimiterRefinesSolo(p, es, key);
    SoloBurst(p, Own(es, key), t);
  }

  lemma {:induction false} SoloBurst(p: Params, ts: seq<int>, t: int)
    requires p.perWindow > 0 && p.window > 0 && forall u :: u in ts ==> u == t
    ensures forall i :: 0 <= i < |ts| ==> (Solo(p, ts).1[i] <==> i < p.perWindow)
    ensures |ts| > 0 ==>
        "" in Solo(p, ts).0
        && Solo(p, ts).0[""] == Bucket(if |ts| < p.perWindow then (p.perWindow - |ts|) as real else 0.0, t)
  {
    if |ts| > 0 {
      var n := |ts| - 1;
      assert forall u :: u in ts[..n] ==> u in ts;
      SoloBurst(p, ts[..n], t);
      QuotaIs(p, 0);
      assert ts[n] in ts;
      assert Gain(p, 0) == 0.0;
      assert forall i :: 0 <= i < n ==> Solo(p, ts).1[i] == Solo(p, ts[..n]).1[i];
    }
  }

  /** Every interval obeys the bound: from the i-th to the j-th allowed event there are at
      most perWindow + perWindow * (their distance) / window of them. */
  lemma IntervalBound(p: Params, ts: seq<int>, i: nat, j: nat)
    requires p.perWindow > 0 && p.window > 0 && Sorted(ts) && i <= j < |Allowed(p, ts)|
    ensures var al := Allowed(p, ts);
            (j - i + 1) as real <= Quota(p, al[j] - al[i])
  {
    hide Burst, Gain, Allowed, Quota;
    QuotaIs(p, Allowed(p, ts)[j] - Allowed(p, ts)[i]);
    IntervalLevel(p, ts, i, j);
  }

  lemma {:induction false} IntervalLevel(p: Params, ts: seq<int>, i: nat, j: nat)
    requires Limits(p) && Sorted(ts) && i <= j < |Allowed(p, ts)|
    ensures var al := Allowed(p, ts); (j - i + 1) as real <= Burst(p) + Gain(p, al[j] - al[i])
  {
    hide Gain, Solo, Level;
    var init, al := ts[..|ts| - 1], Allowed(p, ts);
    if j < |Allowed(p, init)| {
      IntervalLevel(p, init, i, j);
    } else {
      var t, al0 := ts[|ts| - 1], Allowed(p, init);
      BucketIsLevel(p, ts);
      LevelAtLeast(p, al0, t, 1.0);
      assert al == al0 + [t] && j == |al0|;
      if i < |al0| {
        assert Burst(p) + Gain(p, t - al0[i]) - (|al0| - i) as real >= 1.0;
      } else {
        GainNonNegative(p, 0);
        RatePositive(p);
      }
    }
  }

  /** A client that leaves at least window / perWindow between its events is never refused. */
  lemma {:induction false} SpacedNeverRefused(p: Params, ts: seq<int>)
    requires p.perWindow > 0 && p.window > 0
    requires forall i :: 0 < i < |ts| ==> p.perWindow * (ts[i] - ts[i - 1]) >= p.window
    ensures forall i :: 0 <= i < |ts| ==> Solo(p, ts).1[i]
    ensures |ts| > 0 ==>
        "" in Solo(p, ts).0 && Solo(p, ts).0[""].tokens >= 0.0 && Solo(p, ts).0[""].last == ts[|ts| - 1]
  {
    if |ts| > 0 {
      var init := ts[..|ts| - 1];
      SpacedNeverRefused(p, init);
      RatePositive(p);
      if |init| > 0 {
        GainsOne(p, ts[|ts| - 1] - ts[|ts| - 2]);
        assert init[|init| - 1] == ts[|ts| - 2];
      }
      assert forall i :: 0 <= i < |init| ==> Solo(p, ts).1[i] == Solo(p, init).1[i];
    }
  }

  lemma GainsOne(p: Params, d: int)
    requires p.perWindow > 0 && p.window > 0 && p.perWindow * d >= p.window
    ensures Gain(p, d) >= 1.0
  {
    QuotaIs(p, d);
    var x, w := (p.perWindow * d) as real, p.window as real;
    assert x == p.perWindow as real * d as real;
    assert x / w >= 1.0 by {
      assert x / w * w == x;
    }
  }
}

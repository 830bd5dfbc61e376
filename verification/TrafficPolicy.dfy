/**
 The adaptive danmaku policy of internal/traffic/policy.go, over real numbers, with the inequalities that
 internal/config/config.go enforces on its parameters.
 */
module TrafficPolicy {
  import opened Basics

  datatype Config = Config(
    hotViewers: int, protectViewers: int, hotRate: int, protectRate: int, hotSample: real, protectSample: real,
    window: int, adaptive: bool, target: real, hotFanout: real, protectFanout: real, minSample: real)

  const SECOND: int := 1_000_000_000
  const BUCKETS: nat := 10000

  predicate Validated(c: Config) {
    && 0 < c.hotViewers <= c.protectViewers && 0 < c.hotRate <= c.protectRate
    && 0.0 < c.protectSample <= c.hotSample <= 1.0
    && c.window >= SECOND / 1000
    && 0.0 < c.target <= c.hotFanout <= c.protectFanout
    && 0.0 < c.minSample <= 1.0
  }

  datatype Mode = Normal | Hot | Protect

  function Severity(m: Mode): nat {
    match m case Normal => 0 case Hot => 1 case Protect => 2
  }

  datatype Decision = Decision(mode: Mode, broadcast: bool, sample: real, fanout: real)

  function Fanout(c: Config, viewers: int, observed: int): real {
    var perSecond := if c.window > 0 then observed as real / (c.window as real / SECOND as real) else observed as real;
    viewers as real * if perSecond < 0.0 then 0.0 else perSecond
  }

  function ModeOf(c: Config, viewers: int, observed: int): Mode {
    var fanout := Fanout(c, viewers, observed);
    if viewers >= c.protectViewers || observed >= c.protectRate || fanout >= c.protectFanout then Protect
    else if viewers >= c.hotViewers || observed >= c.hotRate || fanout >= c.hotFanout then Hot
    else Normal
  }

  function Clamp(low: real, x: real): real {
    var y := if low > x then low else x;
    if y < 1.0 then y else 1.0
  }

  function Sample(c: Config, mode: Mode, fanout: real): real {
    if mode == Normal then 1.0
    else if c.adaptive && fanout > 0.0 && c.target > 0.0 then Clamp(c.minSample, c.target / fanout)
    else if mode == Protect then c.protectSample
    else c.hotSample
  }

  function SampleAt(c: Config, viewers: int, observed: int): real {
    Sample(c, ModeOf(c, viewers, observed), Fanout(c, viewers, observed))
  }

  /** keep: a threshold on the bucket a message id hashes to. */
  function Keep(bucket: nat, sample: real): bool {
    if sample >= 1.0 then true
    else if sample <= 0.0 then false
    else bucket as real < sample * 10000.0
  }

  /** Decide, given the viewers and rate that the sampler returned, or its error. */
  function Decide(c: Config, reading: Option<(int, int)>, hash: string -> nat, message: string): Option<Decision> {
    if reading.None? then None
    else
      var (viewers, observed) := reading.value;
      var sample := SampleAt(c, viewers, observed);
      Some(Decision(ModeOf(c, viewers, observed), Keep(hash(message) % BUCKETS, sample), sample, Fanout(c, viewers, observed)))
  }

  // ----- capacity -----

  lemma Quotient(target: real, fanout: real)
    requires fanout > 0.0
    ensures (target / fanout) * fanout == target
  {
  }

  lemma ScaleUp(a: real, b: real, f: real)
    requires a <= b && f >= 0.0
    ensures a * f <= b * f
  {
  }

  lemma StrictScale(a: real, b: real, f: real)
    requires a < b && f > 0.0
    ensures a * f < b * f
  {
  }

  /** Comparing a quotient is comparing products. */
  lemma QuotientOrder(t: real, f: real, x: real)
    requires f > 0.0
    ensures t / f <= x <==> t <= x * f
    ensures t / f >= x <==> t >= x * f
  {
    Quotient(t, f);
    if t / f < x { StrictScale(t / f, x, f); }
    if t / f > x { StrictScale(x, t / f, f); }
  }

  /** Sampled deliveries stay below the HOT threshold, except where the minimum sample rate forbids it. */
  lemma CapacityBound(c: Config, viewers: int, observed: int)
    requires Validated(c) && c.adaptive
    ensures var f, s := Fanout(c, viewers, observed), SampleAt(c, viewers, observed);
      s * f <= c.hotFanout || s * f <= c.minSample * f
  {
    var f, s := Fanout(c, viewers, observed), SampleAt(c, viewers, observed);
    if f > 0.0 && ModeOf(c, viewers, observed) != Normal {
      Quotient(c.target, f);
      if s < 1.0 && s > c.minSample { assert s == c.target / f; }
      if s == 1.0 { ScaleUp(1.0, if c.minSample > c.target / f then c.minSample else c.target / f, f); }
    } else if f <= 0.0 {
      if s >= 0.0 { ScaleUp(0.0, s, -f); }
    }
  }

  /** Under pressure the controller hits its target exactly whenever the target asks for a rate it may choose. */
  lemma TargetIsHit(c: Config, viewers: int, observed: int)
    requires Validated(c) && c.adaptive && ModeOf(c, viewers, observed) != Normal && Fanout(c, viewers, observed) > 0.0
    ensures var f, s := Fanout(c, viewers, observed), SampleAt(c, viewers, observed);
      s * f == c.target <==> c.minSample * f <= c.target <= f
  {
    var f, s := Fanout(c, viewers, observed), SampleAt(c, viewers, observed);
    Quotient(c.target, f);
    QuotientOrder(c.target, f, c.minSample);
    QuotientOrder(c.target, f, 1.0);
    if s * f == c.target {
      ScaleUp(c.minSample, s, f);
      ScaleUp(s, 1.0, f);
    }
  }

  // ----- monotonicity -----

  lemma PerSecondGrows(c: Config, a: int, b: int)
    requires c.window > 0 && 0 <= a <= b
    ensures 0.0 <= a as real / (c.window as real / SECOND as real) <= b as real / (c.window as real / SECOND as real)
  {
    var w := c.window as real / SECOND as real;
    assert w > 0.0;
    Quotient(b as real, w);
    QuotientOrder(a as real, w, b as real / w);
    QuotientOrder(a as real, w, 0.0);
  }

  lemma ProductGrows(a: real, b: real, p: real, q: real)
    requires 0.0 <= a <= b && 0.0 <= p <= q
    ensures 0.0 <= a * p <= b * q
  {
    ScaleUp(p, q, a);
    ScaleUp(a, b, q);
    ScaleUp(0.0, p, a);
  }

  lemma FanoutGrows(c: Config, v: int, o: int, v': int, o': int)
    requires c.window > 0 && 0 <= v <= v' && 0 <= o <= o'
    ensures 0.0 <= Fanout(c, v, o) <= Fanout(c, v', o')
  {
    PerSecondGrows(c, o, o');
    var w := c.window as real / SECOND as real;
    ProductGrows(v as real, v' as real, o as real / w, o' as real / w);
    assert Fanout(c, v, o) == v as real * (o as real / w);
    assert Fanout(c, v', o') == v' as real * (o' as real / w);
  }

  /** More viewers or more messages never lower the degradation mode. */
  lemma ModeGrows(c: Config, v: int, o: int, v': int, o': int)
    requires Validated(c) && 0 <= v <= v' && 0 <= o <= o'
    ensures Severity(ModeOf(c, v, o)) <= Severity(ModeOf(c, v', o'))
  {
    FanoutGrows(c, v, o, v', o');
  }

  lemma InverseShrinks(t: real, f: real, f': real)
    requires t > 0.0 && 0.0 < f <= f'
    ensures t / f' <= t / f
  {
    Quotient(t, f);
    QuotientOrder(t, f, 0.0);
    ScaleUp(f, f', t / f);
    QuotientOrder(t, f', t / f);
  }

  /** More pressure never raises the sample rate, once there is fan-out to measure or adaptation is off. */
  lemma SampleShrinks(c: Config, v: int, o: int, v': int, o': int)
    requires Validated(c) && 0 <= v <= v' && 0 <= o <= o'
    requires c.adaptive && ModeOf(c, v, o) != Normal ==> Fanout(c, v, o) > 0.0
    ensures SampleAt(c, v', o') <= SampleAt(c, v, o) <= 1.0
    ensures SampleAt(c, v', o') > 0.0
  {
    FanoutGrows(c, v, o, v', o');
    ModeGrows(c, v, o, v', o');
    var f, f' := Fanout(c, v, o), Fanout(c, v', o');
    if c.adaptive && f > 0.0 { InverseShrinks(c.target, f, f'); }
  }

  function AtLeastOne(n: int): int {
    if n < 1 then 1 else n
  }

  /** More pressure can only lower the sample rate that holds at this reading. */
  ghost predicate NeverRises(c: Config, v: int, o: int) {
    forall v', o' :: v <= v' && o <= o' ==> SampleAt(c, v', o') <= SampleAt(c, v, o)
  }

  /** A reading at which the fixed sample rate stands in for the adaptive one. */
  predicate FallsBack(c: Config, v: int, o: int) {
    c.adaptive && ModeOf(c, v, o) != Normal && Fanout(c, v, o) <= 0.0
  }

  /** The least reading with fan-out lies above the given one, and below every other with fan-out. */
  lemma LeastFanout(c: Config, v: int, o: int)
    requires c.window > 0 && 0 <= v && 0 <= o
    ensures Fanout(c, v, o) > 0.0 <==> v >= 1 && o >= 1
  {
    var w := c.window as real / SECOND as real;
    assert Fanout(c, v, o) == v as real * if o as real / w < 0.0 then 0.0 else o as real / w;
    QuotientOrder(o as real, w, 0.0);
    if v >= 1 && o >= 1 { StrictScale(0.0, v as real, o as real / w); }
  }

  lemma NoRiseAbove(c: Config, v: int, o: int, v': int, o': int)
    requires Validated(c) && 0 <= v <= v' && 0 <= o <= o' && FallsBack(c, v, o)
    requires SampleAt(c, AtLeastOne(v), AtLeastOne(o)) <= SampleAt(c, v, o)
    ensures SampleAt(c, v', o') <= SampleAt(c, v, o)
  {
    LeastFanout(c, v', o');
    LeastFanout(c, AtLeastOne(v), AtLeastOne(o));
    if Fanout(c, v', o') > 0.0 {
      SampleShrinks(c, AtLeastOne(v), AtLeastOne(o), v', o');
    } else {
      ModeGrows(c, v, o, v', o');
    }
  }

  /**
   The sample rate never rises above the one at a reading exactly when that reading does not fall back on the
   fixed rate, or the adaptive rate at the least reading with fan-out is not above it.
   */
  lemma NeverRisesIff(c: Config, v: int, o: int)
    requires Validated(c) && 0 <= v && 0 <= o
    ensures NeverRises(c, v, o) <==>
      (FallsBack(c, v, o) ==> SampleAt(c, AtLeastOne(v), AtLeastOne(o)) <= SampleAt(c, v, o))
  {
    if FallsBack(c, v, o) {
      if SampleAt(c, AtLeastOne(v), AtLeastOne(o)) <= SampleAt(c, v, o) {
        forall v', o' | v <= v' && o <= o' ensures SampleAt(c, v', o') <= SampleAt(c, v, o) {
          NoRiseAbove(c, v, o, v', o');
        }
      }
    } else {
      forall v', o' | v <= v' && o <= o' ensures SampleAt(c, v', o') <= SampleAt(c, v, o) {
        SampleShrinks(c, v, o, v', o');
      }
    }
  }

  /** Without fan-out it can: an empty HOT room samples less than the same room with one viewer. */
  lemma EmptyRoomSamplesLess(c: Config)
    requires Validated(c) && c.adaptive && c.window == SECOND && c.hotSample < 1.0
    requires c.hotRate < c.protectRate && c.hotRate as real <= c.target && c.hotViewers > 1
    ensures SampleAt(c, 0, c.hotRate) < SampleAt(c, 1, c.hotRate)
  {
    var f := Fanout(c, 1, c.hotRate);
    assert SECOND as real / SECOND as real == 1.0;
    assert f == c.hotRate as real && Fanout(c, 0, c.hotRate) == 0.0;
    QuotientOrder(c.target, f, 1.0);
  }

  // ----- sampling -----

  /** ceil(x) for the thresholds that occur. */
  function Ceil(x: real): int {
    if x.Floor as real == x then x.Floor else x.Floor + 1
  }

  /** The kept buckets are an initial segment whose length is the sample rate rounded up to a ten-thousandth. */
  lemma KeptIff(sample: real, bucket: nat)
    requires 0.0 <= sample <= 1.0 && bucket < BUCKETS
    ensures Keep(bucket, sample) <==> bucket < Ceil(sample * 10000.0)
    ensures 0 <= Ceil(sample * 10000.0) <= BUCKETS
  {
    var x := sample * 10000.0;
    assert x.Floor as real <= x < x.Floor as real + 1.0;
  }

  function KeptBuckets(sample: real): set<nat> {
    set b: nat | b < BUCKETS && Keep(b, sample)
  }

  lemma {:induction false} SegmentSize(n: nat, s: set<nat>)
    requires forall b: nat :: b in s <==> b < n
    ensures |s| == n
  {
    if n > 0 {
      SegmentSize(n - 1, s - {n - 1});
      assert s == (s - {n - 1}) + {n - 1};
    } else {
      assert s == {};
    }
  }

  lemma KeptCount(sample: real)
    requires 0.0 <= sample <= 1.0
    ensures |KeptBuckets(sample)| == Ceil(sample * 10000.0)
  {
    KeptIff(sample, 0);
    forall b: nat ensures b in KeptBuckets(sample) <==> b < Ceil(sample * 10000.0) {
      if b < BUCKETS { KeptIff(sample, b); }
    }
    SegmentSize(Ceil(sample * 10000.0), KeptBuckets(sample));
  }

  /** Whatever the hash: a message that is broadcast under higher pressure is broadcast under lower pressure too. */
  lemma KeptMessagesNest(c: Config, v: int, o: int, v': int, o': int, hash: string -> nat, message: string)
    requires Validated(c) && 0 <= v <= v' && 0 <= o <= o' && NeverRises(c, v, o)
    ensures Decide(c, Some((v', o')), hash, message).value.broadcast ==> Decide(c, Some((v, o)), hash, message).value.broadcast
  {
    ScaleUp(SampleAt(c, v', o'), SampleAt(c, v, o), 10000.0);
  }

  // ----- what Decide returns -----

  lemma SampleInRange(c: Config, viewers: int, observed: int)
    requires Validated(c)
    ensures 0.0 < SampleAt(c, viewers, observed) <= 1.0
  {
  }

  /** The measured fan-out and the mode of a decision, by the thresholds. An unreadable room gets no decision. */
  lemma DecidesMode(c: Config, viewers: int, observed: int, hash: string -> nat, message: string)
    requires Validated(c)
    ensures Decide(c, None, hash, message) == None && Decide(c, Some((viewers, observed)), hash, message).Some?
    ensures var d := Decide(c, Some((viewers, observed)), hash, message).value;
      && d.fanout * c.window as real == viewers as real * (if observed < 0 then 0 else observed) as real * 1_000_000_000.0
      && (d.mode == Protect <==>
            viewers >= c.protectViewers || observed >= c.protectRate || d.fanout >= c.protectFanout)
      && (d.mode == Normal <==> viewers < c.hotViewers && observed < c.hotRate && d.fanout < c.hotFanout)
  {
    var w, x := c.window as real / SECOND as real, observed as real;
    assert w > 0.0 && w * 1_000_000_000.0 == c.window as real;
    QuotientOrder(x, w, 0.0);
    var f := Fanout(c, viewers, observed);
    assert f == viewers as real * if x < 0.0 then 0.0 else x / w;
    Regroup(viewers as real, x / w, w);
    Quotient(x, w);
    assert f * c.window as real == (f * w) * 1_000_000_000.0;
  }

  lemma Regroup(v: real, q: real, w: real)
    ensures (v * q) * w == v * (q * w)
  {
  }

  /** The sample rate of a decision: full when NORMAL, fixed without adaptation or fan-out, else the clamped target. */
  lemma DecidesSample(c: Config, viewers: int, observed: int, hash: string -> nat, message: string)
    requires Validated(c)
    ensures var d := Decide(c, Some((viewers, observed)), hash, message).value;
      && 0.0 < d.sample <= 1.0
      && (d.mode == Normal ==> d.sample == 1.0)
      && (d.mode != Normal && (!c.adaptive || d.fanout <= 0.0) ==>
            d.sample == if d.mode == Protect then c.protectSample else c.hotSample)
      && (d.mode != Normal && c.adaptive && d.fanout > 0.0 ==>
            && c.minSample <= d.sample
            && (c.minSample * d.fanout <= c.target <= d.fanout ==> d.sample * d.fanout == c.target)
            && (c.target < c.minSample * d.fanout ==> d.sample == c.minSample)
            && (c.target > d.fanout ==> d.sample == 1.0))
  {
    SampleInRange(c, viewers, observed);
    var f := Fanout(c, viewers, observed);
    if ModeOf(c, viewers, observed) != Normal && c.adaptive && f > 0.0 {
      TargetIsHit(c, viewers, observed);
      QuotientOrder(c.target, f, c.minSample);
      QuotientOrder(c.target, f, 1.0);
    }
  }

  /** Whatever the hash, a message is broadcast exactly when its bucket lies below the sample rate. */
  lemma DecidesBroadcast(c: Config, viewers: int, observed: int, hash: string -> nat, message: string)
    requires Validated(c)
    ensures var d := Decide(c, Some((viewers, observed)), hash, message).value;
      d.broadcast <==> (hash(message) % 10000) as real < 10000.0 * d.sample
  {
    SampleInRange(c, viewers, observed);
    assert 0 <= hash(message) % 10000 < 10000;
  }

  /** A message whose hash lies in this bucket is broadcast. */
  predicate Broadcasts(c: Config, viewers: int, observed: int, bucket: nat, message: string) {
    Decide(c, Some((viewers, observed)), (m: string) => bucket, message).value.broadcast
  }

  function Broadcasting(c: Config, viewers: int, observed: int, message: string): set<nat> {
    set b: nat | b < 10000 && Broadcasts(c, viewers, observed, b, message)
  }

  /** Of the 10000 buckets 10000 times the sample rate are broadcast, rounded up. */
  lemma DecidesShare(c: Config, viewers: int, observed: int, hash: string -> nat, message: string)
    requires Validated(c)
    ensures var d, n := Decide(c, Some((viewers, observed)), hash, message).value, |Broadcasting(c, viewers, observed, message)|;
      n as real - 1.0 < 10000.0 * d.sample <= n as real
  {
    SampleInRange(c, viewers, observed);
    var s := SampleAt(c, viewers, observed);
    forall b: nat | b < BUCKETS ensures Broadcasts(c, viewers, observed, b, message) == Keep(b, s) { assert b % BUCKETS == b; }
    assert Broadcasting(c, viewers, observed, message) == KeptBuckets(s);
    KeptCount(s);
    var x := s * 10000.0;
    assert x.Floor as real <= x < x.Floor as real + 1.0;
  }

  /** In adaptive mode a decision's deliveries stay within the HOT threshold or what the minimum sample rate asks for. */
  lemma DecidesWithinCapacity(c: Config, viewers: int, observed: int, hash: string -> nat, message: string)
    requires Validated(c) && c.adaptive
    ensures var d := Decide(c, Some((viewers, observed)), hash, message).value;
      d.sample * d.fanout <= c.hotFanout || d.sample * d.fanout <= c.minSample * d.fanout
  {
    CapacityBound(c, viewers, observed);
  }

  /** More pressure never lowers the mode of a decision or its fan-out. */
  lemma DecisionsGrow(c: Config, v: int, o: int, v': int, o': int, hash: string -> nat, message: string)
    requires Validated(c) && 0 <= v <= v' && 0 <= o <= o'
    ensures var d, d' := Decide(c, Some((v, o)), hash, message).value, Decide(c, Some((v', o')), hash, message).value;
      && Severity(d.mode) <= Severity(d'.mode) && 0.0 <= d.fanout <= d'.fanout
      && (NeverRises(c, v, o) ==> d'.sample <= d.sample && (d'.broadcast ==> d.broadcast))
  {
    ModeGrows(c, v, o, v', o');
    FanoutGrows(c, v, o, v', o');
    if NeverRises(c, v, o) { KeptMessagesNest(c, v, o, v', o', hash, message); }
  }
}

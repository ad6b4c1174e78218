/** Difficulty and timestamp rules (internal/consensus/pow/engine.go, internal/consensus/validation.go). */
module Headers {
  import opened Types
  import opened Arith
  import opened Params
  import opened Target
  import opened MedianTime

  /** How the rules see a block's ancestors: by height, nil when unknown. */
  type Ancestors = nat -> Option<Header>

  ghost predicate Sane(p: ChainParams) {
    p.retargetInterval > 0 && p.targetTimespan > 0
  }

  // -------------------------------------------------------------------------- difficulty

  function Clamp(x: int, lo: int, hi: int): int {
    if (if x < lo then lo else x) > hi then hi else if x < lo then lo else x
  }

  function ClampedSpan(p: ChainParams, span: int): int {
    Clamp(span, p.targetTimespan / 4, p.targetTimespan * 4)
  }

  /** The exact target before it is rounded to compact form. */
  function Wanted(p: ChainParams, oldBits: u32, span: int): int
    requires p.targetTimespan > 0
  {
    var scaled := CompactToBig(oldBits) * ClampedSpan(p, span) / p.targetTimespan;
    if scaled > CompactToBig(p.minBits) then CompactToBig(p.minBits) else scaled
  }

  /** The retarget arithmetic on exact integers. */
  function Retarget(p: ChainParams, oldBits: u32, span: int): u32
    requires p.targetTimespan > 0
  {
    BigToCompact(Wanted(p, oldBits, span))
  }

  /** The header the retarget window starts at, when the next height is a boundary. */
  function WindowStart(p: ChainParams, tipHeight: nat, getAncestor: Ancestors): Option<Header>
    requires Sane(p)
  {
    if (tipHeight + 1) % p.retargetInterval != 0 then None
    else
      MultipleAtLeast(tipHeight + 1, p.retargetInterval);
      getAncestor(tipHeight - (p.retargetInterval - 1))
  }

  function NextBits(p: ChainParams, tip: Header, first: Option<Header>): u32
    requires Sane(p)
  {
    if p.noRetarget then p.initialBits
    else if first.None? then tip.bits
    else Retarget(p, tip.bits, tip.timestamp - first.value.timestamp)
  }

  function CalcNextBits(p: ChainParams, tip: Header, tipHeight: nat, getAncestor: Ancestors): u32
    requires Sane(p)
  {
    NextBits(p, tip, WindowStart(p, tipHeight, getAncestor))
  }

  lemma {:induction false} ScaledWithin(base: nat, actual: int, span: int)
    requires span > 0 && 0 <= actual <= span * 4
    ensures 0 <= base * actual / span <= 4 * base
  {
    MulMono(base, actual, span * 4);
    MulMono(base, 0, actual);
    calc {
      base * (span * 4);
      { MulAssoc(base, span, 4); }
      (base * span) * 4;
      (span * base) * 4;
      { MulAssoc(span, base, 4); }
      span * (base * 4);
    }
    QuotientWithin(base * actual, span, 4 * base);
  }

  lemma {:induction false} QuotientWithin(x: int, d: int, hi: int)
    requires d > 0 && 0 <= x <= d * hi
    ensures 0 <= x / d <= hi
  {
    var q, r := x / d, x % d;
    assert x == d * q + r && d * (hi + 1) == d * hi + d;
    if q > hi { MulMono(d, hi + 1, q); }
    if q < 0 { MulMono(d, q, -1); }
  }

  /**
   * A retarget never passes the limit, whatever the signs, as long as what it asks for can be encoded; from a target
   * that is not negative it always can, and the result is at most fourfold and, under such a limit, not negative.
   */
  lemma {:induction false} RetargetStaysWithin(p: ChainParams, oldBits: u32, span: int)
    requires p.targetTimespan > 0
    ensures var before, after, limit := CompactToBig(oldBits), CompactToBig(Retarget(p, oldBits, span)), CompactToBig(p.minBits);
            && (Encodable(Wanted(p, oldBits, span)) ==> after <= limit)
            && (before >= 0 ==> Encodable(Wanted(p, oldBits, span)) && after <= 4 * before)
            && (before >= 0 && limit >= 0 ==> after >= 0)
  {
    hide CompactToBig, BigToCompact, Encodable;
    WantedFacts(p, oldBits, span);
    if Encodable(Wanted(p, oldBits, span)) { RoundsWithin(Wanted(p, oldBits, span), p.minBits); }
  }

  /** Rounding to compact form never passes a compact value, nor leaves the side of zero it is on. */
  lemma {:induction false} RoundsWithin(t: int, c: u32)
    requires Encodable(t)
    ensures t <= CompactToBig(c) ==> CompactToBig(BigToCompact(t)) <= CompactToBig(c)
    ensures if t >= 0 then 0 <= CompactToBig(BigToCompact(t)) <= t else CompactToBig(BigToCompact(t)) <= 0
  {
    hide CompactToBig, BigToCompact, Pow256;
    if t >= 0 { BigToCompactIsFloor(t, c); } else { NegativeRoundsUp(-t, c); }
  }

  /** A window that took longer never gives a smaller target. */
  lemma {:induction false} RetargetMonotone(p: ChainParams, oldBits: u32, span: int, longer: int)
    requires p.targetTimespan > 0 && 0 <= CompactToBig(oldBits) && 0 <= CompactToBig(p.minBits) && span <= longer
    ensures CompactToBig(Retarget(p, oldBits, span)) <= CompactToBig(Retarget(p, oldBits, longer))
  {
    hide CompactToBig, BigToCompact;
    var low, high := Wanted(p, oldBits, span), Wanted(p, oldBits, longer);
    WantedFacts(p, oldBits, span);
    WantedFacts(p, oldBits, longer);
    var a, b := ClampedSpan(p, span), ClampedSpan(p, longer);
    MulMono(CompactToBig(oldBits), a, b);
    DivMono(CompactToBig(oldBits) * a, CompactToBig(oldBits) * b, p.targetTimespan);
    BigToCompactIsFloor(low, 0);
    BigToCompactIsFloor(high, BigToCompact(low));
  }

  /** A window that took exactly as long as it should keeps the target, unless the limit is below it. */
  lemma {:induction false} RetargetKeepsSteady(p: ChainParams, oldBits: u32)
    requires p.targetTimespan > 0 && WithinLimit(p, oldBits)
    ensures CompactToBig(Retarget(p, oldBits, p.targetTimespan)) == CompactToBig(oldBits)
  {
    hide CompactToBig, BigToCompact;
    var t, d := CompactToBig(oldBits), p.targetTimespan;
    DivUnique(t * d, d, t, 0) by { assert t * d == d * t + 0; }
    DecodeEncodeDecode(oldBits);
  }

  lemma {:induction false} WantedFacts(p: ChainParams, oldBits: u32, span: int)
    requires p.targetTimespan > 0
    ensures Retarget(p, oldBits, span) == BigToCompact(Wanted(p, oldBits, span))
    ensures Wanted(p, oldBits, span) <= CompactToBig(p.minBits)
    ensures 0 <= CompactToBig(oldBits) ==> Encodable(Wanted(p, oldBits, span)) && Wanted(p, oldBits, span) <= 4 * CompactToBig(oldBits)
    ensures 0 <= CompactToBig(oldBits) && 0 <= CompactToBig(p.minBits) ==> 0 <= Wanted(p, oldBits, span)
  {
    hide CompactToBig, BigToCompact, Pow256;
    if 0 <= CompactToBig(oldBits) { ScaledWithin(CompactToBig(oldBits), ClampedSpan(p, span), p.targetTimespan); }
    DecodedIsEncodable(p.minBits);
  }

  /** A length of time brought into a quarter to four times the target time. */
  ghost predicate IsClamped(span: int, timespan: int, s: int) {
    if span < timespan / 4 then s == timespan / 4
    else if span > timespan * 4 then s == timespan * 4
    else s == span
  }

  /** Away from a boundary the bits of the tip go on; networks that do not retarget have their initial bits. */
  lemma {:induction false} BitsGoOn(p: ChainParams, tip: Header, tipHeight: nat, getAncestor: Ancestors)
    requires Sane(p)
    ensures p.noRetarget ==> CalcNextBits(p, tip, tipHeight, getAncestor) == p.initialBits
    ensures !p.noRetarget && (tipHeight + 1) % p.retargetInterval != 0 ==> CalcNextBits(p, tip, tipHeight, getAncestor) == tip.bits
  {
    hide CompactToBig, BigToCompact;
  }

  /**
   * At a boundary the new target is the greatest that compact bits can express, not above the limit and not above the
   * tip's target times the clamped time since the header one interval below the next height, over the target time.
   */
  lemma {:induction false} RetargetValue(p: ChainParams, tip: Header, tipHeight: nat, getAncestor: Ancestors, first: Header, s: int)
    requires Sane(p) && !p.noRetarget && (tipHeight + 1) % p.retargetInterval == 0
    requires tipHeight + 1 >= p.retargetInterval ==> getAncestor(tipHeight + 1 - p.retargetInterval) == Some(first)
    requires CompactToBig(tip.bits) >= 0 && IsClamped(tip.timestamp - first.timestamp, p.targetTimespan, s)
    ensures var target, limit, bound := CompactToBig(CalcNextBits(p, tip, tipHeight, getAncestor)), CompactToBig(p.minBits),
                                        CompactToBig(tip.bits) * s;
            && target <= limit && target * p.targetTimespan <= bound
            && forall c: u32 :: CompactToBig(c) <= limit && CompactToBig(c) * p.targetTimespan <= bound ==> CompactToBig(c) <= target
  {
    hide CompactToBig, BigToCompact, Encodable;
    MultipleAtLeast(tipHeight + 1, p.retargetInterval);
    var span, t := tip.timestamp - first.timestamp, CompactToBig(tip.bits);
    assert s == ClampedSpan(p, span);
    var w, limit := Wanted(p, tip.bits, span), CompactToBig(p.minBits);
    assert CalcNextBits(p, tip, tipHeight, getAncestor) == Retarget(p, tip.bits, span);
    WantedFacts(p, tip.bits, span);
    var q, d := t * s / p.targetTimespan, p.targetTimespan;
    QuotientIs(t * s, d);
    ScaledWithin(t, s, d);
    var target := CompactToBig(BigToCompact(w));
    RoundsTo(w, p.minBits);
    MulMono(d, target, q);
    MulCommutes(d, target);
    MulCommutes(d, q);
    forall c: u32 | CompactToBig(c) <= limit && CompactToBig(c) * d <= t * s ensures CompactToBig(c) <= target {
      UnderQuotient(CompactToBig(c), t * s, d);
      RoundsTo(w, c);
    }
  }

  lemma {:induction false} QuotientIs(x: int, d: int)
    requires d > 0
    ensures x / d * d <= x < (x / d + 1) * d
  {
    assert x == d * (x / d) + x % d;
    MulCommutes(d, x / d);
    MulCommutes(d, x / d + 1);
  }

  lemma {:induction false} UnderQuotient(v: int, x: int, d: int)
    requires d > 0 && v * d <= x
    ensures v <= x / d
  {
    QuotientIs(x, d);
    if v > x / d { MulMono(d, x / d + 1, v); MulCommutes(d, v); MulCommutes(d, x / d + 1); }
  }

  /** The bits nearest below a number, and the number itself if it is one that compact bits express. */
  lemma {:induction false} RoundsTo(t: int, c: u32)
    requires Encodable(t)
    ensures CompactToBig(c) <= t ==> CompactToBig(c) <= CompactToBig(BigToCompact(t))
    ensures t >= 0 || CompactToBig(c) == t ==> CompactToBig(BigToCompact(t)) <= t
  {
    hide CompactToBig, BigToCompact, Pow256;
    if t >= 0 { BigToCompactIsFloor(t, c); } else { NegativeRoundsUp(-t, c); }
  }

  // --------------------------------------------------------------------------- timestamps

  /** The window of at most eleven timestamps ending at a height, newest first. */
  function Window(height: nat, getAncestor: Ancestors, i: nat): seq<u32>
    requires i <= MEDIAN_COUNT
    decreases MEDIAN_COUNT - i
  {
    if i == MEDIAN_COUNT || height < i || getAncestor(height - i).None? then []
    else [getAncestor(height - i).value.timestamp] + Window(height, getAncestor, i + 1)
  }

  function MedianTimePast(height: nat, getAncestor: Ancestors): u32 {
    Median(Window(height, getAncestor, 0))
  }

  lemma {:induction false} WindowFrom(height: nat, getAncestor: Ancestors, i: nat)
    requires i <= MEDIAN_COUNT
    ensures Window(height, getAncestor, i) ==
            if i == MEDIAN_COUNT || height < i || getAncestor(height - i).None? then []
            else [getAncestor(height - i).value.timestamp] + Window(height, getAncestor, i + 1)
  {
  }

  /** Along known ancestors the window is the timestamps of the last eleven blocks, or of all if there are fewer. */
  lemma {:induction false} WindowIsLastEleven(height: nat, getAncestor: Ancestors, i: nat)
    requires i <= MEDIAN_COUNT && forall k :: 0 <= k <= height ==> getAncestor(k).Some?
    ensures var w := Window(height, getAncestor, i);
            && |w| == (if height + 1 >= 11 then 11 - i else if height + 1 >= i then height + 1 - i else 0)
            && forall k :: 0 <= k < |w| ==> w[k] == getAncestor(height - i - k).value.timestamp
    decreases MEDIAN_COUNT - i
  {
    if i < MEDIAN_COUNT && height >= i { WindowIsLastEleven(height, getAncestor, i + 1); }
  }

  /** Collects the window, sorts it in place and takes its middle. */
  method CalcMedianTimePast(height: nat, getAncestor: Ancestors) returns (m: u32)
    ensures m == MedianTimePast(height, getAncestor)
  {
    hide Sorted, Median, Window;
    var timestamps: seq<u32> := [];
    var i := 0;
    while i < MEDIAN_COUNT && height >= i
      invariant i <= MEDIAN_COUNT
      invariant timestamps + Window(height, getAncestor, i) == Window(height, getAncestor, 0)
    {
      WindowFrom(height, getAncestor, i);
      var h := getAncestor(height - i);
      if h.None? { break; }
      timestamps := timestamps + [h.value.timestamp];
      i := i + 1;
    }
    WindowFrom(height, getAncestor, i);
    assert timestamps == Window(height, getAncestor, 0);
    m := MiddleTime(timestamps);
  }

  method MiddleTime(timestamps: seq<u32>) returns (m: u32)
    ensures m == Median(timestamps)
  {
    hide Sorted;
    if |timestamps| == 0 { return 0; }
    var a := new u32[|timestamps|](k requires 0 <= k < |timestamps| => timestamps[k]);
    assert a[..] == timestamps;
    SortInPlace(a);
    return a[..][a.Length / 2];
  }

  predicate NotBefore(p: ChainParams, h: Header, parent: Header, parentHeight: nat, getAncestor: Ancestors) {
    match p.minTimestampRule
    case PrevPlusOne => h.timestamp > parent.timestamp
    case Median11 => h.timestamp > MedianTimePast(parentHeight, getAncestor)
    case UnknownRule => false
  }

  predicate NotTooFuture(p: ChainParams, h: Header, now: u32) {
    h.timestamp <= (now + p.maxTimeFutureDrift) % TWO32
  }

  method ValidateHeaderTimestamp(p: ChainParams, h: Header, parent: Header, now: u32, getAncestor: Ancestors, parentHeight: nat)
    returns (ok: bool)
    ensures ok <==> NotTooFuture(p, h, now) && NotBefore(p, h, parent, parentHeight, getAncestor)
  {
    if h.timestamp > (now + p.maxTimeFutureDrift) % TWO32 { return false; }
    match p.minTimestampRule
    case PrevPlusOne => return h.timestamp > parent.timestamp;
    case Median11 =>
      var median := CalcMedianTimePast(parentHeight, getAncestor);
      return h.timestamp > median;
    case UnknownRule => return false;
  }

  // ------------------------------------------------------ the rules along a path of headers

  /** The naive walk: the block at a height is the one the path has there. */
  function OnPath(path: seq<Header>): Ancestors {
    (i: nat) => if i < |path| then Some(path[i]) else None
  }

  ghost predicate AgreeUpTo(f: Ancestors, g: Ancestors, height: nat) {
    forall i :: 0 <= i <= height ==> f(i) == g(i)
  }

  lemma {:induction false} WindowAgrees(f: Ancestors, g: Ancestors, height: nat, i: nat)
    requires AgreeUpTo(f, g, height) && i <= MEDIAN_COUNT
    ensures Window(height, f, i) == Window(height, g, i)
    decreases MEDIAN_COUNT - i
  {
    if i < MEDIAN_COUNT && height >= i { WindowAgrees(f, g, height, i + 1); }
  }

  lemma {:induction false} WindowStartAgrees(p: ChainParams, height: nat, f: Ancestors, g: Ancestors)
    requires Sane(p) && AgreeUpTo(f, g, height)
    ensures WindowStart(p, height, f) == WindowStart(p, height, g)
  {
    if (height + 1) % p.retargetInterval == 0 {
      MultipleAtLeast(height + 1, p.retargetInterval);
      var w := height - (p.retargetInterval - 1);
      assert f(w) == g(w);
    }
  }

  /** Expected bits and median time are functions of the ancestors up to the parent and nothing else. */
  lemma {:induction false} RulesDependOnAncestorsOnly(p: ChainParams, tip: Header, height: nat, f: Ancestors, g: Ancestors)
    requires Sane(p) && AgreeUpTo(f, g, height)
    ensures CalcNextBits(p, tip, height, f) == CalcNextBits(p, tip, height, g)
    ensures MedianTimePast(height, f) == MedianTimePast(height, g)
  {
    WindowStartAgrees(p, height, f, g);
    WindowAgrees(f, g, height, 0);
  }

  /** A header that may follow the path. */
  ghost predicate MayFollow(p: ChainParams, path: seq<Header>, h: Header)
    requires Sane(p) && path != []
  {
    var n := |path| - 1;
    h.bits == CalcNextBits(p, path[n], n, OnPath(path)) && NotBefore(p, h, path[n], n, OnPath(path))
  }

  /** Checked through any lookup that agrees with the path, the rules are those of the path. */
  lemma {:induction false} MayFollowByLookup(p: ChainParams, path: seq<Header>, h: Header, f: Ancestors)
    requires Sane(p) && path != [] && AgreeUpTo(f, OnPath(path), |path| - 1)
    ensures var n := |path| - 1;
            MayFollow(p, path, h) <==> h.bits == CalcNextBits(p, path[n], n, f) && NotBefore(p, h, path[n], n, f)
  {
    hide CalcNextBits, MedianTimePast, AgreeUpTo, OnPath;
    RulesDependOnAncestorsOnly(p, path[|path| - 1], |path| - 1, f, OnPath(path));
  }

  ghost predicate HeadersOk(p: ChainParams, path: seq<Header>)
    requires Sane(p)
  {
    && path != [] && path[0] == p.genesisBlock.header
    && (|path| > 1 ==> HeadersOk(p, path[..|path| - 1]) && MayFollow(p, path[..|path| - 1], path[|path| - 1]))
  }

  ghost predicate WithinLimit(p: ChainParams, bits: u32) {
    0 <= CompactToBig(bits) <= CompactToBig(p.minBits)
  }

  lemma {:induction false} NextBitsWithin(p: ChainParams, tip: Header, first: Option<Header>)
    requires Sane(p) && WithinLimit(p, tip.bits) && WithinLimit(p, p.initialBits)
    ensures WithinLimit(p, NextBits(p, tip, first))
    ensures !p.noRetarget ==> CompactToBig(NextBits(p, tip, first)) <= 4 * CompactToBig(tip.bits)
  {
    if !p.noRetarget && first.Some? { RetargetStaysWithin(p, tip.bits, tip.timestamp - first.value.timestamp); }
  }

  /** Along every accepted chain the target never leaves the limit, and one step at most quadruples it. */
  lemma {:induction false} TargetsStayWithinLimit(p: ChainParams, path: seq<Header>)
    requires Sane(p) && HeadersOk(p, path)
    requires WithinLimit(p, p.genesisBlock.header.bits) && WithinLimit(p, p.initialBits)
    ensures WithinLimit(p, path[|path| - 1].bits)
    ensures |path| > 1 && !p.noRetarget ==>
              CompactToBig(path[|path| - 1].bits) <= 4 * CompactToBig(path[|path| - 2].bits)
  {
    if |path| > 1 {
      var init := path[..|path| - 1];
      TargetsStayWithinLimit(p, init);
      NextBitsWithin(p, init[|init| - 1], WindowStart(p, |init| - 1, OnPath(init)));
    }
  }

  lemma {:induction false} WindowSize(height: nat, f: Ancestors, i: nat)
    requires i <= MEDIAN_COUNT
    ensures |Window(height, f, i)| <= MEDIAN_COUNT - i
    decreases MEDIAN_COUNT - i
  {
    if i < MEDIAN_COUNT { WindowSize(height, f, i + 1); }
  }

  /** The window one block later, counted from its second entry. */
  lemma {:induction false} WindowShifts(path: seq<Header>, h: Header, i: nat)
    requires path != [] && i < MEDIAN_COUNT
    ensures var w := Window(|path| - 1, OnPath(path), i);
            Window(|path|, OnPath(path + [h]), i + 1) == if |w| == MEDIAN_COUNT - i then w[..|w| - 1] else w
    decreases MEDIAN_COUNT - i
  {
    var n := |path| - 1;
    WindowSize(n, OnPath(path), i);
    if i < MEDIAN_COUNT - 1 && n >= i {
      WindowShifts(path, h, i + 1);
      assert OnPath(path + [h])(|path| - (i + 1)) == OnPath(path)(n - i);
    }
  }

  lemma {:induction false} WindowHead(height: nat, f: Ancestors)
    requires f(height).Some?
    ensures Window(height, f, 0) == [f(height).value.timestamp] + Window(height, f, 1)
  {
  }

  lemma {:induction false} WindowSlides(path: seq<Header>, h: Header)
    requires path != []
    ensures Window(|path|, OnPath(path + [h]), 0) == Slide(Window(|path| - 1, OnPath(path), 0), h.timestamp)
    ensures 0 < |Window(|path| - 1, OnPath(path), 0)| <= MEDIAN_COUNT
  {
    hide Window;
    var n := |path| - 1;
    WindowSize(n, OnPath(path), 0);
    WindowShifts(path, h, 0);
    WindowHead(n, OnPath(path));
    WindowHead(n + 1, OnPath(path + [h]));
    assert OnPath(path + [h])(|path|) == Some(h);
  }

  lemma {:induction false} MedianStep(p: ChainParams, path: seq<Header>)
    requires Sane(p) && HeadersOk(p, path) && p.minTimestampRule == Median11 && |path| > 1
    ensures var n := |path| - 1;
            MedianTimePast(n - 1, OnPath(path[..n])) <= MedianTimePast(n, OnPath(path))
  {
    var n := |path| - 1;
    var init, h := path[..n], path[n];
    assert path == init + [h];
    WindowSlides(init, h);
    MedianNeverDecreases(Window(n - 1, OnPath(init), 0), h.timestamp);
  }

  /** Under the median rule, median time past never decreases along an accepted chain. */
  lemma {:induction false} MedianTimeNeverDecreases(p: ChainParams, path: seq<Header>, i: nat)
    requires Sane(p) && HeadersOk(p, path) && p.minTimestampRule == Median11
    requires i < |path|
    ensures MedianTimePast(i, OnPath(path[..i + 1])) <= MedianTimePast(|path| - 1, OnPath(path))
  {
    if i == |path| - 1 {
      assert path[..i + 1] == path;
    } else {
      var init := path[..|path| - 1];
      assert init[..i + 1] == path[..i + 1];
      MedianTimeNeverDecreases(p, init, i);
      MedianStep(p, path);
    }
  }
}

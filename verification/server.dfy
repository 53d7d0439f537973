/** One backend endpoint of an upstream and its load/health counters.

    The historic `statRequests` and the live `currentRequests` share one 64-bit
    word (`requests`): stat in the high 32 bits, current in the low 32 bits. The
    functions below compute each update on that word exactly as Java's `long`
    and `int` arithmetic does; the `Server` class applies them to its fields. */
module Servers {
  import opened Wrappers
  import opened JavaInts
  import JavaStrings

  // ---------------------------------------------------------------------------
  // The packed counter word

  /** `packRequests`: stat shifted into the high half plus current; a packed value
      that comes out negative is replaced by `Long.MAX_VALUE`. */
  function PackRequests(stat: int, current: int): (v: int)
    requires IsInt(stat) && IsInt(current)
    ensures IsLong(v) && v >= 0
    ensures 0 <= stat && 0 <= current ==> v == stat * TWO_32 + current
  {
    var packed := WrapLong(stat * TWO_32 + current);
    if packed < 0 then LONG_MAX else packed
  }

  /** `unpackStatRequests`: `(int) (v >> 32)`. */
  function UnpackStatRequests(v: int): (stat: int)
    requires IsLong(v)
    ensures IsInt(stat)
    ensures stat >= 0 <==> v >= 0
  {
    ToInt(v / TWO_32)
  }

  /** `unpackCurrentRequests`: `(int) v`. */
  function UnpackCurrentRequests(v: int): (current: int)
    requires IsLong(v)
    ensures IsInt(current)
    ensures v == UnpackStatRequests(v) * TWO_32 + current + (if current < 0 then TWO_32 else 0)
  {
    assert v == (v / TWO_32) * TWO_32 + v % TWO_32;
    ToInt(v)
  }

  /** Both counters are non-negative: the state every update keeps while no counter overflows. */
  predicate CountersNonNegative(v: int) {
    IsLong(v) && UnpackStatRequests(v) >= 0 && UnpackCurrentRequests(v) >= 0
  }

  /** Packing two non-negative `int`s never takes the overflow branch, and unpacking gives them back. */
  lemma PackRoundTrip(stat: int, current: int)
    requires 0 <= stat <= INT_MAX && 0 <= current <= INT_MAX
    ensures PackRequests(stat, current) == stat * TWO_32 + current < LONG_MAX
    ensures UnpackStatRequests(PackRequests(stat, current)) == stat
    ensures UnpackCurrentRequests(PackRequests(stat, current)) == current
  {
    var v := stat * TWO_32 + current;
    assert v / TWO_32 == stat && v % TWO_32 == current;
  }

  /** A word whose counters are non-negative is the packing of its two counters. */
  lemma {:induction false} Repack(v: int)
    requires CountersNonNegative(v)
    ensures v == PackRequests(UnpackStatRequests(v), UnpackCurrentRequests(v))
    ensures v == UnpackStatRequests(v) * TWO_32 + UnpackCurrentRequests(v)
  {
    var s, c := UnpackStatRequests(v), UnpackCurrentRequests(v);
    assert s == v / TWO_32;
    assert c == v % TWO_32;
    assert v == s * TWO_32 + c;
  }

  // ---------------------------------------------------------------------------
  // Counter updates

  /** `acquire`: `requests.addAndGet(packRequests(1, 1))` with `long` wrap-around. */
  function AcquiredValue(v: int): (r: int)
    requires IsLong(v)
    ensures IsLong(r)
    ensures CountersNonNegative(v) ==>
      && UnpackStatRequests(r) == ToInt(UnpackStatRequests(v) + 1)
      && UnpackCurrentRequests(r) == ToInt(UnpackCurrentRequests(v) + 1)
  {
    if CountersNonNegative(v) then AcquireAddsToEachHalf(v); WrapLong(v + PackRequests(1, 1))
    else WrapLong(v + PackRequests(1, 1))
  }

  /** Adding the packed (1, 1) to a word with non-negative counters carries nothing from
      the low half into the high half: each half grows by one in `int` arithmetic. */
  lemma {:induction false} AcquireAddsToEachHalf(v: int)
    requires CountersNonNegative(v)
    ensures var r := WrapLong(v + PackRequests(1, 1));
      UnpackStatRequests(r) == ToInt(UnpackStatRequests(v) + 1)
      && UnpackCurrentRequests(r) == ToInt(UnpackCurrentRequests(v) + 1)
  {
    var s, c := UnpackStatRequests(v), UnpackCurrentRequests(v);
    Repack(v);
    PackRoundTrip(1, 1);
    var r := WrapLong(v + PackRequests(1, 1));
    if s < INT_MAX {
      assert r == (s + 1) * TWO_32 + (c + 1);
    } else {
      assert r == INT_MIN * TWO_32 + (c + 1);
    }
    assert r / TWO_32 == ToInt(s + 1) && r % TWO_32 == c + 1;
  }

  /** Below the `int` limit, `acquire` raises both counters by exactly one. */
  lemma {:induction false} AcquireIncrementsBoth(v: int)
    requires CountersNonNegative(v)
    requires UnpackStatRequests(v) < INT_MAX && UnpackCurrentRequests(v) < INT_MAX
    ensures CountersNonNegative(AcquiredValue(v))
    ensures UnpackStatRequests(AcquiredValue(v)) == UnpackStatRequests(v) + 1
    ensures UnpackCurrentRequests(AcquiredValue(v)) == UnpackCurrentRequests(v) + 1
  {
    var s, c := UnpackStatRequests(v), UnpackCurrentRequests(v);
    Repack(v);
    PackRoundTrip(1, 1);
    PackRoundTrip(s + 1, c + 1);
    assert v + PackRequests(1, 1) == PackRequests(s + 1, c + 1);
  }

  /** At the `int` limit of the live counter, `acquire` carries nothing into the stat half:
      the live count wraps to `Integer.MIN_VALUE` while stat still grows by one. */
  lemma {:induction false} AcquireWrapsCurrentAtLimit(v: int)
    requires CountersNonNegative(v)
    requires UnpackStatRequests(v) < INT_MAX && UnpackCurrentRequests(v) == INT_MAX
    ensures UnpackStatRequests(AcquiredValue(v)) == UnpackStatRequests(v) + 1
    ensures UnpackCurrentRequests(AcquiredValue(v)) == INT_MIN
  {
    var s := UnpackStatRequests(v);
    Repack(v);
    PackRoundTrip(1, 1);
    var r := v + PackRequests(1, 1);
    assert r == (s + 1) * TWO_32 + TWO_32 / 2;
    assert r / TWO_32 == s + 1 && r % TWO_32 == TWO_32 / 2;
  }

  /** `release`: current drops by one floored at zero; stat drops by one floored at
      zero only for a retry (a negative stat is then raised to zero). */
  function ReleasedValue(v: int, isRetry: bool): (r: int)
    requires IsLong(v)
    ensures IsLong(r)
    ensures UnpackStatRequests(v) >= 0 || isRetry ==>
      && CountersNonNegative(r)
      && UnpackCurrentRequests(r) == (if UnpackCurrentRequests(v) > 0 then UnpackCurrentRequests(v) - 1 else 0)
      && UnpackStatRequests(r) == (if !isRetry then UnpackStatRequests(v)
                                   else if UnpackStatRequests(v) > 0 then UnpackStatRequests(v) - 1 else 0)
    ensures UnpackStatRequests(v) < 0 && !isRetry ==> r == LONG_MAX
  {
    var stat := UnpackStatRequests(v);
    var stat' := if isRetry then (if stat > 0 then stat - 1 else 0) else stat;
    var current := UnpackCurrentRequests(v);
    var current' := if current > 0 then current - 1 else 0;
    if stat' >= 0 then PackRoundTrip(stat', current'); PackRequests(stat', current')
    else PackRequests(stat', current')
  }

  /** `release`'s update of the consecutive-failure counter: an error adds one, saturating
      at `Integer.MAX_VALUE`; a success resets it. */
  function FailsAfter(fails: int, isError: bool): (r: int)
    requires IsInt(fails)
    ensures IsInt(r)
    ensures isError ==> fails < r || r == fails == INT_MAX
    ensures !isError ==> r == 0
  {
    if isError then (if fails < INT_MAX then fails + 1 else INT_MAX) else 0
  }

  /** The failure counter after a run of releases, oldest first. */
  function FailsAfterAll(fails: int, errors: seq<bool>): (r: int)
    requires IsInt(fails)
    ensures IsInt(r)
  {
    if errors == [] then fails else FailsAfter(FailsAfterAll(fails, errors[..|errors| - 1]), errors[|errors| - 1])
  }

  /** The number of errors at the end of `errors`, after the last success. */
  function TrailingErrors(errors: seq<bool>): (n: nat)
    ensures n <= |errors|
  {
    if errors == [] || !errors[|errors| - 1] then 0 else TrailingErrors(errors[..|errors| - 1]) + 1
  }

  /** Starting from zero, `fails` counts the consecutive errors since the last success,
      saturated at `Integer.MAX_VALUE`. */
  lemma {:induction false} FailsCountsConsecutiveErrors(errors: seq<bool>)
    ensures FailsAfterAll(0, errors) == if TrailingErrors(errors) < INT_MAX then TrailingErrors(errors) else INT_MAX
  {
    if errors != [] {
      FailsCountsConsecutiveErrors(errors[..|errors| - 1]);
    }
  }

  /** `needToRescale`: the stat counter has reached the limit. */
  predicate NeedToRescale(v: int, statLimit: int)
    requires IsLong(v)
  {
    UnpackStatRequests(v) >= statLimit
  }

  /** `rescaleStatsRequests`: below the limit nothing changes; otherwise stat is
      halved (`>> 1`) and current is repacked unchanged. */
  function RescaledValue(v: int, statLimit: int): (r: int)
    requires IsLong(v)
    ensures IsLong(r)
    ensures !NeedToRescale(v, statLimit) ==> r == v
    ensures CountersNonNegative(v) ==>
      && CountersNonNegative(r)
      && UnpackCurrentRequests(r) == UnpackCurrentRequests(v)
      && UnpackStatRequests(r) == (if NeedToRescale(v, statLimit) then UnpackStatRequests(v) / 2 else UnpackStatRequests(v))
  {
    var stat := UnpackStatRequests(v);
    if stat < statLimit then v
    else
      var current := UnpackCurrentRequests(v);
      if CountersNonNegative(v) then PackRoundTrip(stat / 2, current); PackRequests(stat / 2, current)
      else PackRequests(stat / 2, current)
  }

  /** With non-negative counters, a rescale changes the word exactly when it is needed
      and there is something to halve. */
  lemma {:induction false} RescaleChangesIffNeeded(v: int, statLimit: int)
    requires CountersNonNegative(v)
    ensures RescaledValue(v, statLimit) != v <==> NeedToRescale(v, statLimit) && UnpackStatRequests(v) > 0
  {
    var r := RescaledValue(v, statLimit);
    Repack(v);
    if NeedToRescale(v, statLimit) {
      Repack(r);
    }
  }

  /** `n` consecutive rescales. */
  function RescaledTimes(v: int, statLimit: int, n: nat): (r: int)
    requires IsLong(v)
    ensures IsLong(r)
  {
    if n == 0 then v else RescaledValue(RescaledTimes(v, statLimit, n - 1), statLimit)
  }

  /** Repeated rescales never drive a counter negative, never touch current and never raise stat. */
  lemma {:induction false} RepeatedRescaleStaysNonNegative(v: int, statLimit: int, n: nat)
    requires CountersNonNegative(v)
    ensures CountersNonNegative(RescaledTimes(v, statLimit, n))
    ensures UnpackCurrentRequests(RescaledTimes(v, statLimit, n)) == UnpackCurrentRequests(v)
    ensures UnpackStatRequests(RescaledTimes(v, statLimit, n)) <= UnpackStatRequests(v)
  {
    if n > 0 {
      RepeatedRescaleStaysNonNegative(v, statLimit, n - 1);
    }
  }

  // ---------------------------------------------------------------------------
  // Load

  /** `calculateLoad` for a word and a weight: `(float) (stat + current) / weight`, where
      the `int` sum wraps before the conversion; float rounding is not modelled. */
  function Load(v: int, weight: int): (load: real)
    requires IsLong(v) && weight > 0
    ensures CountersNonNegative(v) && IsInt(UnpackStatRequests(v) + UnpackCurrentRequests(v)) ==>
      load >= 0.0 && load * weight as real == (UnpackStatRequests(v) + UnpackCurrentRequests(v)) as real
  {
    ToInt(UnpackStatRequests(v) + UnpackCurrentRequests(v)) as real / weight as real
  }

  lemma DivideMonotone(a: real, b: real, w1: real, w2: real)
    requires 0.0 <= a <= b && 0.0 < w2 <= w1
    ensures a / w1 <= b / w2
  {
    assert a / w1 <= a / w2 by {
      assert a / w1 * w1 == a == a / w2 * w2;
    }
    assert a / w2 <= b / w2;
  }

  /** Load grows with the number of requests and shrinks with the weight. */
  lemma LoadMonotone(v1: int, w1: int, v2: int, w2: int)
    requires CountersNonNegative(v1) && CountersNonNegative(v2)
    requires IsInt(UnpackStatRequests(v2) + UnpackCurrentRequests(v2))
    requires UnpackStatRequests(v1) + UnpackCurrentRequests(v1) <= UnpackStatRequests(v2) + UnpackCurrentRequests(v2)
    requires 0 < w2 <= w1
    ensures Load(v1, w1) <= Load(v2, w2)
  {
    var a := UnpackStatRequests(v1) + UnpackCurrentRequests(v1);
    var b := UnpackStatRequests(v2) + UnpackCurrentRequests(v2);
    assert Load(v1, w1) == a as real / w1 as real;
    assert Load(v2, w2) == b as real / w2 as real;
    DivideMonotone(a as real, b as real, w1 as real, w2 as real);
  }

  /** The stat counter a server gets when its slow start ends:
      `(int) Math.floor(maxLoad * weight)`, with current kept. */
  function SeededValue(v: int, maxLoad: real, weight: int): (r: int)
    requires IsLong(v)
    ensures IsLong(r)
    ensures UnpackCurrentRequests(v) >= 0 && 0.0 <= maxLoad * weight as real ==>
      && CountersNonNegative(r)
      && UnpackStatRequests(r) == (if maxLoad * weight as real < INT_MAX as real then (maxLoad * weight as real).Floor
                                   else INT_MAX)
      && UnpackCurrentRequests(r) == UnpackCurrentRequests(v)
  {
    var initialStat := DoubleToInt((maxLoad * weight as real).Floor as real);
    var current := UnpackCurrentRequests(v);
    if current >= 0 && 0 <= initialStat then PackRoundTrip(initialStat, current); PackRequests(initialStat, current)
    else PackRequests(initialStat, current)
  }

  /** The result of `getStatLoad`: a number, or `Float.POSITIVE_INFINITY` during slow start. */
  datatype StatLoad = Infinite | Finite(value: real)

  // ---------------------------------------------------------------------------
  // The endpoint

  class Server {
    const address: string
    const datacenter: Option<string>
    var weight: int
    /** The packed `statRequests`/`currentRequests` word. */
    var requests: int
    /** Consecutive failures since the last success. */
    var fails: int
    var slowStartModeEnabled: bool
    /** 0 until a slow-start window is armed, its end (epoch millis) once armed, -1 once statistics are seeded. */
    var slowStartEndMillis: int
    var statisticsFilledWithInitialValues: bool
    var statLimit: int

    /** The Java field types, and the positive weight every load computation divides by. */
    ghost predicate Valid()
      reads this
    {
      IsLong(requests) && IsInt(fails) && IsInt(weight) && weight > 0
      && IsInt(statLimit) && IsLong(slowStartEndMillis)
    }

    constructor (address: string, weight: int, datacenter: Option<string>)
      requires IsInt(weight) && weight > 0
      ensures Valid()
      ensures this.address == address && this.weight == weight && this.datacenter == datacenter
      ensures requests == 0 && fails == 0 && statLimit == 0
      ensures !slowStartModeEnabled && slowStartEndMillis == 0 && !statisticsFilledWithInitialValues
    {
      this.address := address;
      this.weight := weight;
      this.datacenter := datacenter;
      requests := 0;
      fails := 0;
      slowStartModeEnabled := false;
      slowStartEndMillis := 0;
      statisticsFilledWithInitialValues := false;
      statLimit := 0;
    }

    /** `getStatsRequests`. */
    function StatsRequests(): (stat: int)
      reads this
      requires Valid()
      ensures IsInt(stat) && (stat >= 0 <==> requests >= 0)
    {
      UnpackStatRequests(requests)
    }

    /** `getRequests`: the live count, the low half of the word. */
    function CurrentRequests(): (current: int)
      reads this
      requires Valid()
      ensures IsInt(current)
      ensures requests == StatsRequests() * TWO_32 + current + (if current < 0 then TWO_32 else 0)
    {
      UnpackCurrentRequests(requests)
    }

    /** `calculateLoad`. */
    function CalculateLoad(): (load: real)
      reads this
      requires Valid()
      ensures CountersNonNegative(requests) && IsInt(StatsRequests() + CurrentRequests()) ==>
        load >= 0.0 && load * weight as real == (StatsRequests() + CurrentRequests()) as real
    {
      Load(requests, weight)
    }

    method Acquire()
      requires Valid()
      modifies this`requests
      ensures Valid()
      ensures requests == AcquiredValue(old(requests))
      ensures old(CountersNonNegative(requests) && StatsRequests() < INT_MAX && CurrentRequests() < INT_MAX) ==>
        StatsRequests() == old(StatsRequests()) + 1 && CurrentRequests() == old(CurrentRequests()) + 1
    {
      if CountersNonNegative(requests) && StatsRequests() < INT_MAX && CurrentRequests() < INT_MAX {
        AcquireIncrementsBoth(requests);
      }
      requests := WrapLong(requests + PackRequests(1, 1));
    }

    method Release(isRetry: bool, isError: bool)
      requires Valid()
      modifies this`requests, this`fails
      ensures Valid()
      ensures requests == ReleasedValue(old(requests), isRetry)
      ensures fails == FailsAfter(old(fails), isError)
      ensures isError ==> fails == if old(fails) < INT_MAX then old(fails) + 1 else INT_MAX
      ensures !isError ==> fails == 0
    {
      var stat := UnpackStatRequests(requests);
      if isRetry {
        stat := if stat > 0 then stat - 1 else 0;
      }
      var current := UnpackCurrentRequests(requests);
      current := if current > 0 then current - 1 else 0;
      requests := PackRequests(stat, current);
      if isError {
        fails := if fails < INT_MAX then fails + 1 else INT_MAX;
      } else {
        fails := 0;
      }
    }

    method RescaleStatsRequests()
      requires Valid()
      modifies this`requests
      ensures Valid()
      ensures requests == RescaledValue(old(requests), statLimit)
      ensures old(StatsRequests()) < statLimit ==> requests == old(requests)
    {
      var stat := UnpackStatRequests(requests);
      if stat >= statLimit {
        requests := PackRequests(stat / 2, UnpackCurrentRequests(requests));
      }
    }

    /** `needToRescale`: it is false exactly when a rescale would leave the word alone,
        unless there is nothing to halve. */
    predicate NeedsRescale()
      reads this
      requires Valid()
      ensures !NeedsRescale() ==> RescaledValue(requests, statLimit) == requests
      ensures NeedsRescale() && CountersNonNegative(requests) && StatsRequests() > 0 ==>
        RescaledValue(requests, statLimit) != requests
    {
      if CountersNonNegative(requests) then RescaleChangesIffNeeded(requests, statLimit); NeedToRescale(requests, statLimit)
      else NeedToRescale(requests, statLimit)
    }

    method SetStatLimit(limit: int)
      requires Valid() && IsInt(limit)
      modifies this`statLimit
      ensures Valid() && statLimit == limit
    {
      statLimit := limit;
    }

    /** `setSlowStartEndTimeIfNeeded`, with `Math.random() * slowStartSeconds * 1000`
        given as `jitterMillis`. The window is armed only while `slowStartEndMillis` is 0. */
    method SetSlowStartEndTimeIfNeeded(slowStartSeconds: int, nowMillis: int, jitterMillis: real)
      requires Valid() && IsInt(slowStartSeconds) && IsLong(nowMillis)
      requires slowStartSeconds > 0 ==> 0.0 <= jitterMillis < (slowStartSeconds * 1000) as real
      modifies this`slowStartModeEnabled, this`slowStartEndMillis
      ensures Valid()
      ensures slowStartSeconds > 0 && old(slowStartEndMillis) == 0 ==>
        slowStartModeEnabled && slowStartEndMillis == DoubleToLong(nowMillis as real + jitterMillis)
      ensures !(slowStartSeconds > 0 && old(slowStartEndMillis) == 0) ==>
        slowStartModeEnabled == old(slowStartModeEnabled) && slowStartEndMillis == old(slowStartEndMillis)
      ensures slowStartSeconds > 0 && old(slowStartEndMillis) == 0 && nowMillis >= 0 ==>
        nowMillis <= slowStartEndMillis < nowMillis + slowStartSeconds * 1000
    {
      if slowStartSeconds > 0 {
        if slowStartEndMillis == 0 {
          slowStartModeEnabled := true;
          slowStartEndMillis := DoubleToLong(nowMillis as real + jitterMillis);
        }
      }
    }

    /** `getStatLoad`: infinite inside an armed slow-start window; otherwise, the first time
        round, seeds the stat counter from the highest load among `currentServers` and
        closes the slow-start machinery for good (end time -1). */
    method GetStatLoad(currentServers: seq<Server>, nowMillis: int) returns (load: StatLoad)
      requires Valid() && forall s :: s in currentServers ==> s.Valid()
      modifies this`requests, this`slowStartModeEnabled, this`slowStartEndMillis, this`statisticsFilledWithInitialValues
      ensures Valid()
      ensures old(slowStartModeEnabled && slowStartEndMillis > 0 && nowMillis <= slowStartEndMillis) ==>
        load == Infinite && unchanged(this)
      ensures !old(slowStartModeEnabled && slowStartEndMillis > 0 && nowMillis <= slowStartEndMillis) ==>
        && load == Finite(CalculateLoad())
        && !slowStartModeEnabled
        && statisticsFilledWithInitialValues
        && (old(statisticsFilledWithInitialValues) ==>
              requests == old(requests) && slowStartEndMillis == old(slowStartEndMillis))
        && (!old(statisticsFilledWithInitialValues) ==>
              requests == SeededValue(old(requests), old(MaxRealStatLoad(currentServers)), weight)
              && slowStartEndMillis == -1)
    {
      // Loads depend on the counters and weights only, which nothing below changes
      // before the seeding reads them.
      var maxLoad := MaxRealStatLoad(currentServers);
      if slowStartModeEnabled {
        if slowStartEndMillis > 0 && nowMillis <= slowStartEndMillis {
          return Infinite;
        }
        slowStartModeEnabled := false;
      }
      if !statisticsFilledWithInitialValues {
        statisticsFilledWithInitialValues := true;
        slowStartEndMillis := -1;
        if !slowStartModeEnabled {
          requests := SeededValue(requests, maxLoad, weight);
        }
      }
      load := Finite(Load(requests, weight));
    }

    /** `equals`: same object, or same address and datacenter; identity adds nothing,
        since a server has its own address and datacenter. */
    predicate Equals(o: Server)
      ensures Equals(o) <==> address == o.address && datacenter == o.datacenter
    {
      this == o || (address == o.address && datacenter == o.datacenter)
    }
  }

  /** `calculateMaxRealStatLoad`: the highest load among `servers`, 0 when there are none. */
  function MaxRealStatLoad(servers: seq<Server>): (m: real)
    reads servers
    requires forall s :: s in servers ==> s.Valid()
    ensures forall s :: s in servers ==> s.CalculateLoad() <= m
    ensures servers == [] ==> m == 0.0
    ensures servers != [] ==> exists s :: s in servers && s.CalculateLoad() == m
  {
    if servers == [] then 0.0
    else if |servers| == 1 then servers[0].CalculateLoad()
    else
      var rest := MaxRealStatLoad(servers[1..]);
      assert forall s :: s in servers ==> s == servers[0] || s in servers[1..];
      if servers[0].CalculateLoad() >= rest then servers[0].CalculateLoad() else rest
  }

  /** `equals` is an equivalence between servers. */
  lemma EqualsIsEquivalence(a: Server, b: Server, c: Server)
    ensures a.Equals(a)
    ensures a.Equals(b) ==> b.Equals(a)
    ensures a.Equals(b) && b.Equals(c) ==> a.Equals(c)
  {
  }

  /** `addressFromHostPort`: `host + ":" + port`. */
  function AddressFromHostPort(host: string, port: int): (address: string)
    ensures JavaStrings.StartsWith(address, host + ":")
  {
    host + ":" + JavaStrings.IntToString(port)
  }

  /** The port can be read back from the address, after the host and the colon. */
  lemma AddressFromHostPortKeepsPort(host: string, port: int)
    ensures var rest := AddressFromHostPort(host, port)[|host| + 1..];
      ((|rest| > 0 && rest[0] == '-' && JavaStrings.IsDigits(rest[1..])) || JavaStrings.IsDigits(rest))
      && JavaStrings.ParseInt(rest) == port
  {
    JavaStrings.IntToStringRoundTrip(port);
    assert AddressFromHostPort(host, port)[|host| + 1..] == JavaStrings.IntToString(port);
  }
}

/**
 * The delegation-token renewal interval of TokenSecureStoreUpdater: the shortest of the renewal
 * intervals configured for the secure services in use, scheduled one hour early, with a safeguard for
 * intervals too small for that. The interval is computed on first use and cached.
 *
 * Configuration values are Java longs; the subtraction of the hour is done in 64-bit arithmetic.
 */
module TokenRenewal {
  import opened Wrappers

  const LONG_MIN: int := -0x8000_0000_0000_0000
  const LONG_MAX: int := 0x7FFF_FFFF_FFFF_FFFF
  const TWO_TO_64: int := 0x1_0000_0000_0000_0000

  predicate IsLong(x: int) {
    LONG_MIN <= x <= LONG_MAX
  }

  /** Java's long arithmetic: the result of an operation reduced into the 64-bit range. */
  function WrapLong(x: int): (r: int)
    ensures IsLong(r)
    ensures IsLong(x) ==> r == x
    ensures (r - x) % TWO_TO_64 == 0
  {
    var m := (x - LONG_MIN) % TWO_TO_64;
    m + LONG_MIN
  }

  const ONE_HOUR_MILLIS: int := 3_600_000
  /** TimeUnit.MILLISECONDS.convert(1, TimeUnit.DAYS): the fallback for the HBase key. */
  const ONE_DAY_MILLIS: int := 86_400_000

  /** The configuration keys the interval depends on. Their names are library constants, not modelled. */
  datatype RenewalKey =
    | DfsTokenRenewInterval           // DFS name node delegation-token renew interval
    | HBaseAuthKeyUpdateInterval      // HBase authentication key update interval
    | YarnTokenRenewInterval          // YARN resource manager delegation-token renew interval
    | HiveTokenRenewInterval          // Hive metastore delegation-token renew interval
    | JobHistoryTokenRenewInterval    // MapReduce job history server delegation-token renew interval

  /** A Hadoop Configuration, restricted to the keys used here: a key is absent when it is not set. */
  type Configuration = map<RenewalKey, int>

  /** The defaults the Hadoop, YARN, Hive and MapReduce libraries supply for their keys. */
  datatype LibraryDefaults = LibraryDefaults(dfs: int, yarn: int, hive: int, jobHistory: int)

  ghost predicate LongValued(conf: Configuration) {
    forall k :: k in conf ==> IsLong(conf[k])
  }

  ghost predicate LongDefaults(d: LibraryDefaults) {
    IsLong(d.dfs) && IsLong(d.yarn) && IsLong(d.hive) && IsLong(d.jobHistory)
  }

  /** Configuration.getLong(key, default) */
  function GetLong(conf: Configuration, key: RenewalKey, default: int): (v: int)
    ensures key in conf ==> v == conf[key]
    ensures key !in conf ==> v == default
  {
    if key in conf then conf[key] else default
  }

  /**
   * The renewal intervals calculateUpdateInterval collects: DFS and HBase always; YARN, Hive and the
   * job history server as well when explore is secure. `hiveConf` is what getHiveConf returned (None
   * when no HiveConf could be created).
   */
  function RenewalTimes(hConf: Configuration, hiveConf: Option<Configuration>, secureExplore: bool,
                        defaults: LibraryDefaults): seq<int>
  {
    var always := [GetLong(hConf, DfsTokenRenewInterval, defaults.dfs),
                   GetLong(hConf, HBaseAuthKeyUpdateInterval, ONE_DAY_MILLIS)];
    if !secureExplore then always
    else
      var hive := if hiveConf.Some? then GetLong(hiveConf.value, HiveTokenRenewInterval, defaults.hive)
                  else defaults.hive;
      always + [GetLong(hConf, YarnTokenRenewInterval, defaults.yarn), hive,
                GetLong(hConf, JobHistoryTokenRenewInterval, defaults.jobHistory)]
  }

  /** Collections.min */
  function MinOf(s: seq<int>): (m: int)
    requires s != []
    ensures m in s
    ensures forall x :: x in s ==> m <= x
  {
    if |s| == 1 then s[0]
    else
      var rest := MinOf(s[1..]);
      assert s == [s[0]] + s[1..];
      if s[0] <= rest then s[0] else rest
  }

  /** The delay for a shortest renewal interval: an hour before it, or the safeguard when that is not positive. */
  function UpdateInterval(minimumInterval: int): int
    requires IsLong(minimumInterval)
  {
    var delay := WrapLong(minimumInterval - ONE_HOUR_MILLIS);
    if delay > 0 then delay
    else if minimumInterval <= 2 then 1
    else minimumInterval / 2
  }

  /** calculateUpdateInterval */
  function CalculateUpdateInterval(hConf: Configuration, hiveConf: Option<Configuration>, secureExplore: bool,
                                   defaults: LibraryDefaults): int
    requires LongValued(hConf) && (hiveConf.Some? ==> LongValued(hiveConf.value)) && LongDefaults(defaults)
  {
    var times := RenewalTimes(hConf, hiveConf, secureExplore, defaults);
    RenewalTimesAreLongs(hConf, hiveConf, secureExplore, defaults);
    UpdateInterval(MinOf(times))
  }

  lemma RenewalTimesAreLongs(hConf: Configuration, hiveConf: Option<Configuration>, secureExplore: bool,
                             defaults: LibraryDefaults)
    requires LongValued(hConf) && (hiveConf.Some? ==> LongValued(hiveConf.value)) && LongDefaults(defaults)
    ensures var times := RenewalTimes(hConf, hiveConf, secureExplore, defaults);
            times != [] && forall x :: x in times ==> IsLong(x)
  {
  }

  /** Without secure explore the candidates are exactly the DFS and HBase intervals; HBase defaults to a day. */
  lemma RenewalTimesWithoutExplore(hConf: Configuration, hiveConf: Option<Configuration>, defaults: LibraryDefaults)
    ensures RenewalTimes(hConf, hiveConf, false, defaults) ==
              [GetLong(hConf, DfsTokenRenewInterval, defaults.dfs),
               if HBaseAuthKeyUpdateInterval in hConf then hConf[HBaseAuthKeyUpdateInterval] else 86_400_000]
  {
  }

  /**
   * With secure explore the YARN, Hive and job history intervals follow, in that order; Hive's falls
   * back to its library default when there is no HiveConf.
   */
  lemma RenewalTimesWithExplore(hConf: Configuration, hiveConf: Option<Configuration>, defaults: LibraryDefaults)
    ensures var times := RenewalTimes(hConf, hiveConf, true, defaults);
            && |times| == 5
            && times[..2] == RenewalTimes(hConf, hiveConf, false, defaults)
            && times[2] == GetLong(hConf, YarnTokenRenewInterval, defaults.yarn)
            && (hiveConf.None? ==> times[3] == defaults.hive)
            && (hiveConf.Some? ==> times[3] == GetLong(hiveConf.value, HiveTokenRenewInterval, defaults.hive))
            && times[4] == GetLong(hConf, JobHistoryTokenRenewInterval, defaults.jobHistory)
  {
  }

  /**
   * The cases of the delay: an hour before the shortest interval when that is positive; otherwise 1
   * for intervals up to 2 and half the interval above. Only an interval within an hour of the
   * smallest long makes the subtraction wrap around, to a large positive delay.
   */
  lemma UpdateIntervalCases(minimumInterval: int)
    requires IsLong(minimumInterval)
    ensures minimumInterval - ONE_HOUR_MILLIS > 0 ==> UpdateInterval(minimumInterval) == minimumInterval - ONE_HOUR_MILLIS
    ensures LONG_MIN + ONE_HOUR_MILLIS <= minimumInterval <= ONE_HOUR_MILLIS ==>
              UpdateInterval(minimumInterval) == if minimumInterval <= 2 then 1 else minimumInterval / 2
    ensures minimumInterval < LONG_MIN + ONE_HOUR_MILLIS ==>
              UpdateInterval(minimumInterval) == minimumInterval - ONE_HOUR_MILLIS + TWO_TO_64
  {
    if minimumInterval < LONG_MIN + ONE_HOUR_MILLIS {
      var x := minimumInterval - ONE_HOUR_MILLIS;
      var r := WrapLong(x);
      assert r == x + TWO_TO_64 by {
        assert (x - LONG_MIN) % TWO_TO_64 == x - LONG_MIN + TWO_TO_64;
      }
    }
  }

  /** The delay is always at least 1 ms, and never more than the shortest interval when that is positive. */
  lemma UpdateIntervalBounds(minimumInterval: int)
    requires IsLong(minimumInterval)
    ensures 1 <= UpdateInterval(minimumInterval) <= LONG_MAX
    ensures minimumInterval >= 1 ==> UpdateInterval(minimumInterval) <= minimumInterval
  {
  }

  /**
   * The computed interval is positive, and when every candidate interval is positive it fires no later
   * than any of them.
   */
  lemma CalculatedIntervalPrecedesEveryRenewal(hConf: Configuration, hiveConf: Option<Configuration>,
                                               secureExplore: bool, defaults: LibraryDefaults)
    requires LongValued(hConf) && (hiveConf.Some? ==> LongValued(hiveConf.value)) && LongDefaults(defaults)
    ensures var interval := CalculateUpdateInterval(hConf, hiveConf, secureExplore, defaults);
            var times := RenewalTimes(hConf, hiveConf, secureExplore, defaults);
            && interval >= 1
            && ((forall x :: x in times ==> x >= 1) ==> forall x :: x in times ==> interval <= x)
  {
    var times := RenewalTimes(hConf, hiveConf, secureExplore, defaults);
    RenewalTimesAreLongs(hConf, hiveConf, secureExplore, defaults);
    UpdateIntervalBounds(MinOf(times));
  }

  class TokenSecureStoreUpdater {
    const hConf: Configuration
    /** What getHiveConf yields: None when HiveConf cannot be created. */
    const hiveConf: Option<Configuration>
    const defaults: LibraryDefaults
    const secureExplore: bool
    /** null until the interval is first asked for. */
    var updateInterval: Option<int>

    ghost predicate Valid()
      reads this
    {
      && LongValued(hConf) && (hiveConf.Some? ==> LongValued(hiveConf.value)) && LongDefaults(defaults)
      && (updateInterval.Some? ==>
            updateInterval.value == CalculateUpdateInterval(hConf, hiveConf, secureExplore, defaults))
    }

    /** Explore is secure exactly when explore is enabled and Hadoop security is on. */
    constructor(hConf: Configuration, hiveConf: Option<Configuration>, defaults: LibraryDefaults,
                exploreEnabled: bool, securityEnabled: bool)
      requires LongValued(hConf) && (hiveConf.Some? ==> LongValued(hiveConf.value)) && LongDefaults(defaults)
      ensures Valid()
      ensures this.hConf == hConf && this.hiveConf == hiveConf && this.defaults == defaults
      ensures secureExplore == (exploreEnabled && securityEnabled)
      ensures updateInterval == None
    {
      this.hConf := hConf;
      this.hiveConf := hiveConf;
      this.defaults := defaults;
      secureExplore := exploreEnabled && securityEnabled;
      updateInterval := None;
    }

    /** getUpdateInterval: computed on the first call, and the cached value on every later one. */
    method GetUpdateInterval() returns (interval: int)
      requires Valid()
      modifies this`updateInterval
      ensures Valid()
      ensures interval == CalculateUpdateInterval(hConf, hiveConf, secureExplore, defaults)
      ensures updateInterval == Some(interval)
      ensures old(updateInterval).Some? ==> interval == old(updateInterval).value
      ensures interval >= 1
    {
      if updateInterval.None? {
        updateInterval := Some(CalculateUpdateInterval(hConf, hiveConf, secureExplore, defaults));
      }
      interval := updateInterval.value;
      CalculatedIntervalPrecedesEveryRenewal(hConf, hiveConf, secureExplore, defaults);
    }
  }
}

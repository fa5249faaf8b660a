/** How long the client waits before it connects again. */
module Backoff {
  import opened Options

  // Durations count nanoseconds and stop at the largest value of the type: 2^64 - 1 seconds and 999,999,999 ns.
  const MAX_DURATION := 0xFFFF_FFFF_FFFF_FFFF * 1_000_000_000 + 999_999_999

  type Duration = d: nat | d <= MAX_DURATION

  const MILLISECOND: Duration := 1_000_000
  const SECOND: Duration := 1_000_000_000
  const MIN_RECONNECTION_DELAY: Duration := MILLISECOND
  const DEFAULT_MALFORMED_EVENT_DELAY: Duration := SECOND

  datatype Config = Config(streamReconnectTimeout: Duration, subscriptionStreamRestartDelay: Option<Duration>)

  function Min(a: nat, b: nat): nat { if a <= b then a else b }

  function Max(a: nat, b: nat): nat { if a <= b then b else a }

  function SaturatingDouble(d: Duration): Duration {
    Min(2 * d, MAX_DURATION)
  }

  function Pow2(n: nat): nat {
    if n == 0 then 1 else 2 * Pow2(n - 1)
  }

  /** The wait before the first retry after a malformed event. */
  function FirstMalformedDelay(cfg: Config): Duration {
    Max(match cfg.subscriptionStreamRestartDelay case Some(d) => d case None => DEFAULT_MALFORMED_EVENT_DELAY,
        MIN_RECONNECTION_DELAY)
  }

  /** The wait before retrying a subscription that was refused. */
  function RejectedRetryDelay(cfg: Config): Duration {
    Max(cfg.streamReconnectTimeout, MIN_RECONNECTION_DELAY)
  }

  /** The wait before the first retry of a resumable connection that broke down. */
  function FirstReconnectDelay(cfg: Config): Duration {
    Min(RejectedRetryDelay(cfg), 2 * SECOND)
  }

  /** Doubling from `first` on, up to `cap`: the delay after `n` failures in a row. */
  function Doubled(first: Duration, cap: Duration, n: nat): Duration
    requires n > 0
  {
    Min(first * Pow2(n - 1), cap)
  }

  function MalformedDelay(cfg: Config, n: nat): Duration
    requires n > 0
  {
    Doubled(FirstMalformedDelay(cfg), Max(cfg.streamReconnectTimeout, FirstMalformedDelay(cfg)), n)
  }

  function ReconnectDelay(cfg: Config, n: nat): Duration
    requires n > 0
  {
    Doubled(FirstReconnectDelay(cfg), RejectedRetryDelay(cfg), n)
  }

  lemma DoubleProduct(first: nat, n: nat)
    ensures first * Pow2(n + 1) == 2 * (first * Pow2(n))
  {
    assert first * (2 * Pow2(n)) == 2 * (first * Pow2(n));
  }

  /** Saturation never shows: the cap comes first. */
  lemma DoubledNext(first: Duration, cap: Duration, n: nat)
    requires n > 0 && first <= cap
    ensures Doubled(first, cap, n + 1) == Min(SaturatingDouble(Doubled(first, cap, n)), cap)
  {
    DoubleProduct(first, n - 1);
  }

  lemma DoubledFirst(first: Duration, cap: Duration)
    requires first <= cap
    ensures Doubled(first, cap, 1) == first
  {}

  /** Delays never shrink while the failures go on. */
  lemma {:induction false} DoubledGrows(first: Duration, cap: Duration, n: nat, m: nat)
    requires 0 < n <= m && first <= cap
    ensures first <= Doubled(first, cap, n) <= Doubled(first, cap, m) <= cap
    decreases m
  {
    if n < m {
      DoubledGrows(first, cap, n, m - 1);
      DoubledNext(first, cap, m - 1);
    } else if n > 1 {
      DoubledGrows(first, cap, n - 1, n - 1);
      DoubledNext(first, cap, n - 1);
    }
  }

  /**
   Waits grow while the failures go on and stay between the first wait and their cap; a resumable connection never waits
   longer than a refused one.
   */
  lemma DelaysGrow(cfg: Config, n: nat, m: nat)
    requires 0 < n <= m
    ensures FirstMalformedDelay(cfg) <= MalformedDelay(cfg, n) <= MalformedDelay(cfg, m)
         <= Max(cfg.streamReconnectTimeout, FirstMalformedDelay(cfg))
    ensures FirstReconnectDelay(cfg) <= ReconnectDelay(cfg, n) <= ReconnectDelay(cfg, m) <= RejectedRetryDelay(cfg)
  {
    DoubledGrows(FirstMalformedDelay(cfg), Max(cfg.streamReconnectTimeout, FirstMalformedDelay(cfg)), n, m);
    DoubledGrows(FirstReconnectDelay(cfg), RejectedRetryDelay(cfg), n, m);
  }

  lemma {:induction false} Pow2Grows(n: nat)
    ensures Pow2(n) > n
  {
    if n > 0 {
      Pow2Grows(n - 1);
    }
  }

  lemma NoSmaller(a: nat, b: nat)
    requires a > 0
    ensures a * b >= b
  {
    assert a * b == (a - 1) * b + b;
  }

  lemma DoubledReaches(first: Duration, cap: Duration, n: nat)
    requires 0 < first <= cap && n > cap
    ensures Doubled(first, cap, n) == cap
  {
    Pow2Grows(n - 1);
    NoSmaller(first, Pow2(n - 1));
    hide Pow2;
  }

  /**
   The wait after malformed events is the restart delay at first, which is a second if none is set and at least a
   millisecond; every further failure doubles it, until it is the stream's timeout or, if that is shorter, for good the
   first wait.
   */
  lemma MalformedDelayDoubles(cfg: Config, n: nat)
    requires n > 0
    ensures MalformedDelay(cfg, 1)
         == match cfg.subscriptionStreamRestartDelay
            case Some(d) => if d < MILLISECOND then MILLISECOND else d
            case None => SECOND
    ensures MalformedDelay(cfg, n + 1)
         == if cfg.streamReconnectTimeout <= MalformedDelay(cfg, 1) then MalformedDelay(cfg, 1)
            else if 2 * MalformedDelay(cfg, n) >= cfg.streamReconnectTimeout then cfg.streamReconnectTimeout
            else 2 * MalformedDelay(cfg, n)
    ensures n > MAX_DURATION ==> MalformedDelay(cfg, n) >= cfg.streamReconnectTimeout
  {
    var first := FirstMalformedDelay(cfg);
    var cap: Duration := Max(cfg.streamReconnectTimeout, first);
    DoubledFirst(first, cap);
    DoubledNext(first, cap, n);
    DoubledGrows(first, cap, n, n);
    if n > MAX_DURATION {
      DoubledReaches(first, cap, n);
    }
  }

  /**
   The wait of a resumable connection is two seconds at first, or the stream's timeout if that is shorter; every further
   failure doubles it, until it is that timeout, which is at least a millisecond.
   */
  lemma ReconnectDelayDoubles(cfg: Config, n: nat)
    requires n > 0
    ensures var timeout := if cfg.streamReconnectTimeout < MILLISECOND then MILLISECOND else cfg.streamReconnectTimeout;
            && ReconnectDelay(cfg, 1) == (if timeout < 2 * SECOND then timeout else 2 * SECOND)
            && ReconnectDelay(cfg, n + 1)
               == (if 2 * ReconnectDelay(cfg, n) >= timeout then timeout else 2 * ReconnectDelay(cfg, n))
            && (n > MAX_DURATION ==> ReconnectDelay(cfg, n) == timeout)
  {
    var first := FirstReconnectDelay(cfg);
    var cap := RejectedRetryDelay(cfg);
    DoubledFirst(first, cap);
    DoubledNext(first, cap, n);
    DoubledGrows(first, cap, n, n);
    if n > MAX_DURATION {
      DoubledReaches(first, cap, n);
    }
  }

  /** The wait after a malformed event: the restart delay at first, then doubling while the events stay malformed. */
  method NextMalformedEventDelay(cfg: Config, state: Option<Duration>) returns (delay: Duration, next: Option<Duration>)
    ensures next == Some(delay)
    ensures state == None ==> delay == MalformedDelay(cfg, 1)
    ensures forall n: nat :: n > 0 && state == Some(MalformedDelay(cfg, n)) ==> delay == MalformedDelay(cfg, n + 1)
  {
    var first := FirstMalformedDelay(cfg);
    var cap := Max(cfg.streamReconnectTimeout, first);
    if state.None? {
      delay := first;
      DoubledFirst(first, cap);
    } else {
      delay := Min(SaturatingDouble(state.value), cap);
      forall n: nat | n > 0 && state == Some(MalformedDelay(cfg, n))
        ensures delay == MalformedDelay(cfg, n + 1)
      {
        DoubledNext(first, cap, n);
      }
    }
    next := Some(delay);
  }

  /** The wait before a resumable connection that broke down is opened again. */
  method NextReconnectDelay(cfg: Config, state: Option<Duration>) returns (delay: Duration, next: Option<Duration>)
    ensures next == Some(delay)
    ensures state == None ==> delay == ReconnectDelay(cfg, 1)
    ensures forall n: nat :: n > 0 && state == Some(ReconnectDelay(cfg, n)) ==> delay == ReconnectDelay(cfg, n + 1)
  {
    var max := RejectedRetryDelay(cfg);
    var first := FirstReconnectDelay(cfg);
    if state.None? {
      delay := first;
      DoubledFirst(first, max);
    } else {
      delay := Min(SaturatingDouble(state.value), max);
      forall n: nat | n > 0 && state == Some(ReconnectDelay(cfg, n))
        ensures delay == ReconnectDelay(cfg, n + 1)
      {
        DoubledNext(first, max, n);
      }
    }
    next := Some(delay);
  }
}

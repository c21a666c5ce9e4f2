/** The bot's anti-flood limiter: per (user, action) it keeps the hit times inside a
    sliding window and admits a hit while the window holds at most `maxHits` of them.
    Clock readings are given in whole milliseconds. */
module RateLimiting {

  /** `RateLimit`: the window length and the number of hits it may hold. */
  datatype RateLimit = RateLimit(windowMs: int, maxHits: int)

  /** The dataclass defaults, which the bot's own limiter also uses: 2 s and 3 hits. */
  const DefaultRateLimit := RateLimit(2000, 3)

  /** The dictionary key `(user_id, key)`. */
  datatype HitKey = HitKey(userId: int, action: string)

  /** `[t for t in arr if now - t <= window]`. */
  function Recent(arr: seq<int>, now: int, windowMs: int): (r: seq<int>)
    ensures |r| <= |arr|
    ensures forall t :: t in r <==> t in arr && now - t <= windowMs
  {
    if arr == [] then []
    else
      var rest := Recent(arr[..|arr| - 1], now, windowMs);
      var t := arr[|arr| - 1];
      assert arr == arr[..|arr| - 1] + [t];
      if now - t <= windowMs then rest + [t] else rest
  }

  /** The list stored after a hit at `now`: the recent old entries, then `now`. */
  function Record(arr: seq<int>, now: int, windowMs: int): seq<int> {
    Recent(arr, now, windowMs) + [now]
  }

  class SimpleRateLimiter {
    const cfg: RateLimit
    var hits: map<HitKey, seq<int>>

    constructor (cfg: RateLimit)
      ensures this.cfg == cfg && hits == map[]
    {
      this.cfg := cfg;
      hits := map[];
    }

    /** `self._hits.get(k, [])`. */
    function Stored(k: HitKey): seq<int>
      reads this
    {
      if k in hits then hits[k] else []
    }

    /** `hit(user_id, key)` at clock reading `now`: the entry for this key is rebuilt and
        stored whether or not the hit is admitted; no other entry changes. */
    method Hit(userId: int, action: string, now: int) returns (allowed: bool)
      modifies this
      ensures hits == old(hits)[HitKey(userId, action) := Record(old(Stored(HitKey(userId, action))), now, cfg.windowMs)]
      ensures allowed <==> |hits[HitKey(userId, action)]| <= cfg.maxHits
    {
      var k := HitKey(userId, action);
      var arr := Stored(k);
      arr := Recent(arr, now, cfg.windowMs);
      arr := arr + [now];
      hits := hits[k := arr];
      allowed := |arr| <= cfg.maxHits;
    }
  }

  // ---------------------------------------------------------------------------
  // Properties of one hit
  // ---------------------------------------------------------------------------

  lemma {:induction false} RecentAppend(a: seq<int>, b: seq<int>, now: int, windowMs: int)
    ensures Recent(a + b, now, windowMs) == Recent(a, now, windowMs) + Recent(b, now, windowMs)
    decreases |b|
  {
    if b == [] {
      assert a + b == a;
    } else {
      var b' := b[..|b| - 1];
      assert (a + b)[..|a + b| - 1] == a + b';
      assert (a + b)[|a + b| - 1] == b[|b| - 1];
      RecentAppend(a, b', now, windowMs);
    }
  }

  /** The filter keeps old entries in their original order: filtering a single entry
      keeps it exactly when it lies inside the window, and filtering distributes over
      concatenation. */
  lemma RecentKeepsOrder(a: seq<int>, t: int, b: seq<int>, now: int, windowMs: int)
    ensures Recent(a + [t] + b, now, windowMs) ==
            Recent(a, now, windowMs) + (if now - t <= windowMs then [t] else []) + Recent(b, now, windowMs)
  {
    RecentAppend(a + [t], b, now, windowMs);
    RecentAppend(a, [t], now, windowMs);
    assert [t][..0] == [];
  }

  /** A hit is admitted exactly when the recent old hits number fewer than `maxHits`. */
  lemma HitCountsRecent(arr: seq<int>, now: int, cfg: RateLimit)
    ensures |Record(arr, now, cfg.windowMs)| <= cfg.maxHits <==> |Recent(arr, now, cfg.windowMs)| < cfg.maxHits
  {
  }

  /** The first hit on a fresh key is admitted exactly when `maxHits` is at least 1;
      in particular always under the default limits. */
  lemma FirstHitAllowed(now: int, cfg: RateLimit)
    ensures |Record([], now, cfg.windowMs)| <= cfg.maxHits <==> cfg.maxHits >= 1
    ensures |Record([], now, DefaultRateLimit.windowMs)| <= DefaultRateLimit.maxHits
  {
  }

  predicate Sorted(arr: seq<int>) {
    forall i, j :: 0 <= i < j < |arr| ==> arr[i] <= arr[j]
  }

  lemma {:induction false} RecentSorted(arr: seq<int>, now: int, windowMs: int)
    requires Sorted(arr)
    ensures Sorted(Recent(arr, now, windowMs))
    decreases |arr|
  {
    if arr != [] {
      var init := arr[..|arr| - 1];
      assert Sorted(init);
      RecentSorted(init, now, windowMs);
      var t := arr[|arr| - 1];
      var rest := Recent(init, now, windowMs);
      forall x | x in rest
        ensures x <= t
      {
        var i :| 0 <= i < |init| && init[i] == x;
        assert arr[i] == x;
      }
      if now - t <= windowMs {
        var r := rest + [t];
        forall i, j | 0 <= i < j < |r|
          ensures r[i] <= r[j]
        {
          if j == |r| - 1 {
            assert r[i] in rest;
          }
        }
      }
    }
  }

  /** With a clock that never runs backwards, each stored list stays sorted. */
  lemma RecordSorted(arr: seq<int>, now: int, windowMs: int)
    requires Sorted(arr)
    requires forall i :: 0 <= i < |arr| ==> arr[i] <= now
    ensures Sorted(Record(arr, now, windowMs))
  {
    RecentSorted(arr, now, windowMs);
    var r := Recent(arr, now, windowMs);
    forall i | 0 <= i < |r|
      ensures r[i] <= now
    {
      assert r[i] in r;
      var j :| 0 <= j < |arr| && arr[j] == r[i];
    }
  }

  // ---------------------------------------------------------------------------
  // Anti-flood: a run of hits on one key
  // ---------------------------------------------------------------------------

  /** The list stored for a key after hits at the given times, starting from none. */
  function Replay(times: seq<int>, windowMs: int): seq<int> {
    if times == [] then []
    else Record(Replay(times[..|times| - 1], windowMs), times[|times| - 1], windowMs)
  }

  /** The times of the admitted hits among them. */
  function AllowedTimes(times: seq<int>, cfg: RateLimit): seq<int> {
    if times == [] then []
    else
      var init := times[..|times| - 1];
      var t := times[|times| - 1];
      if |Record(Replay(init, cfg.windowMs), t, cfg.windowMs)| <= cfg.maxHits
      then AllowedTimes(init, cfg) + [t]
      else AllowedTimes(init, cfg)
  }

  predicate Nondecreasing(times: seq<int>) {
    forall i, j :: 0 <= i < j < |times| ==> times[i] <= times[j]
  }

  /** A window judged later keeps no more than one judged earlier. */
  lemma {:induction false} RecentShrinks(arr: seq<int>, t1: int, t2: int, windowMs: int)
    requires t1 <= t2
    ensures |Recent(arr, t2, windowMs)| <= |Recent(arr, t1, windowMs)|
    decreases |arr|
  {
    if arr != [] {
      RecentShrinks(arr[..|arr| - 1], t1, t2, windowMs);
    }
  }

  /** Filtering twice, first at an earlier moment, is filtering once at the later one. */
  lemma {:induction false} RecentTwice(arr: seq<int>, t1: int, t2: int, windowMs: int)
    requires t1 <= t2
    ensures Recent(Recent(arr, t1, windowMs), t2, windowMs) == Recent(arr, t2, windowMs)
    decreases |arr|
  {
    if arr != [] {
      var init := arr[..|arr| - 1];
      var t := arr[|arr| - 1];
      RecentTwice(init, t1, t2, windowMs);
      if t1 - t <= windowMs {
        RecentAppend(Recent(init, t1, windowMs), [t], t2, windowMs);
        assert [t][..0] == [];
      }
    }
  }

  /** With a clock that never runs backwards, the stored list is exactly the hits, admitted
      or not, that lie inside the window ending at the latest one. */
  lemma {:induction false} ReplayIsWindow(times: seq<int>, windowMs: int)
    requires Nondecreasing(times) && times != [] && windowMs >= 0
    ensures Replay(times, windowMs) == Recent(times, times[|times| - 1], windowMs)
    decreases |times|
  {
    var init := times[..|times| - 1];
    var t := times[|times| - 1];
    assert times == init + [t];
    RecentAppend(init, [t], t, windowMs);
    assert [t][..0] == [];
    if init != [] {
      ReplayIsWindow(init, windowMs);
      RecentTwice(init, init[|init| - 1], t, windowMs);
    }
  }

  /** Admitted hits are among all hits, so no window holds more of them. */
  lemma {:induction false} AllowedWithinAll(times: seq<int>, cfg: RateLimit, now: int)
    ensures |Recent(AllowedTimes(times, cfg), now, cfg.windowMs)| <= |Recent(times, now, cfg.windowMs)|
    decreases |times|
  {
    if times != [] {
      var init := times[..|times| - 1];
      var t := times[|times| - 1];
      AllowedWithinAll(init, cfg, now);
      assert times == init + [t];
      RecentAppend(init, [t], now, cfg.windowMs);
      RecentAppend(AllowedTimes(init, cfg), [t], now, cfg.windowMs);
      assert [t][..0] == [];
    }
  }

  /** The anti-flood promise: with a clock that never runs backwards, at any moment after
      a run of hits on one key, the window ending then holds at most `maxHits` admitted hits. */
  lemma {:induction false} AntiFlood(times: seq<int>, cfg: RateLimit, now: int)
    requires Nondecreasing(times) && cfg.windowMs >= 0 && cfg.maxHits >= 0
    requires forall i :: 0 <= i < |times| ==> times[i] <= now
    ensures |Recent(AllowedTimes(times, cfg), now, cfg.windowMs)| <= cfg.maxHits
    decreases |times|
  {
    if times != [] {
      var init := times[..|times| - 1];
      var t := times[|times| - 1];
      assert Nondecreasing(init);
      if |Record(Replay(init, cfg.windowMs), t, cfg.windowMs)| <= cfg.maxHits {
        assert Replay(times, cfg.windowMs) == Record(Replay(init, cfg.windowMs), t, cfg.windowMs);
        RecentShrinks(AllowedTimes(times, cfg), t, now, cfg.windowMs);
        AllowedWithinAll(times, cfg, t);
        ReplayIsWindow(times, cfg.windowMs);
      } else {
        AntiFlood(init, cfg, now);
      }
    }
  }
}

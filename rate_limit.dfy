/** The per-shop sliding-window rate limiter of the gateway: for every shop a
    window of admission times, oldest first. A call first trims the entries
    that are a full window old or older from the front of the shop's window;
    it is rejected, with a retry-after time, when the quota is used up, and
    admitted otherwise, appending the current time. Times are milliseconds
    from the clock, given as a parameter. */
module RateLimit {

  /** Length of the window in milliseconds (60 seconds). */
  const RateLimitWindow: nat := 60000
  /** Admissions allowed per shop within one window. */
  const MaxRequests: nat := 600

  type ShopId = string
  type Timestamp = nat

  datatype Decision =
    | Admitted
      /** `waitMs` is the time until the oldest entry expires; the error
          message reports it rounded up to whole seconds. */
    | Rejected(waitMs: int, retryAfterSeconds: int)

  /** A decision together with the shop's window after the call. */
  datatype Step = Step(decision: Decision, window: seq<Timestamp>)

  ghost predicate Sorted(s: seq<Timestamp>) {
    forall i, j :: 0 <= i < j < |s| ==> s[i] <= s[j]
  }

  /** The window a shop has in the map; a shop seen for the first time has
      an empty one. */
  function WindowOf(requests: map<ShopId, seq<Timestamp>>, shopId: ShopId): seq<Timestamp> {
    if shopId in requests then requests[shopId] else []
  }

  /** The trim at the start of every call: entries are dropped from the front
      while the front one is at least a full window old. */
  function Purge(s: seq<Timestamp>, now: Timestamp): (r: seq<Timestamp>)
    ensures |r| <= |s| && r == s[|s| - |r|..]
    ensures r != [] ==> now - r[0] < RateLimitWindow
    ensures forall i :: 0 <= i < |s| - |r| ==> now - s[i] >= RateLimitWindow
    ensures s != [] && now - s[0] >= RateLimitWindow ==> |r| < |s|
    decreases |s|
  {
    if s != [] && now - s[0] >= RateLimitWindow then Purge(s[1..], now) else s
  }

  /** The trim loop: the front entry is shifted off while it has expired. */
  method TrimExpired(s: seq<Timestamp>, now: Timestamp) returns (t: seq<Timestamp>)
    ensures t == Purge(s, now)
  {
    t := s;
    while |t| > 0 && now - t[0] >= RateLimitWindow
      invariant Purge(t, now) == Purge(s, now)
      decreases |t|
    {
      t := t[1..];
    }
  }

  /** `Math.ceil(ms / 1000)`: whole seconds, rounded up. */
  function CeilSeconds(ms: int): (sec: int)
    ensures (sec - 1) * 1000 < ms <= sec * 1000
  {
    -((-ms) / 1000)
  }

  /** One call of the limiter on a shop's window `w` at time `now`. */
  function Decide(w: seq<Timestamp>, now: Timestamp): (r: Step)
    ensures |w| <= MaxRequests ==> |r.window| <= MaxRequests
    ensures r.decision.Rejected? ==> 0 < r.decision.waitMs && 1 <= r.decision.retryAfterSeconds
    ensures r.decision.Rejected? ==> r.window == Purge(w, now)
    ensures r.decision.Admitted? ==> r.window == Purge(w, now) + [now]
    // admitted exactly when the trimmed window is below the quota
    ensures r.decision.Admitted? <==> |Purge(w, now)| < MaxRequests
    // the wait runs until the oldest remaining entry leaves the window
    ensures r.decision.Rejected? ==>
              r.decision.waitMs == RateLimitWindow - (now - Purge(w, now)[0])
              && r.decision.retryAfterSeconds == CeilSeconds(r.decision.waitMs)
  {
    var t := Purge(w, now);
    if |t| >= MaxRequests then
      var waitMs := RateLimitWindow - (now - t[0]);
      Step(Rejected(waitMs, CeilSeconds(waitMs)), t)
    else
      Step(Admitted, t + [now])
  }

  /** The entries of `w` that are less than a window old, in order: an
      independent description of what the trim keeps. */
  function Recent(w: seq<Timestamp>, now: Timestamp): seq<Timestamp> {
    if w == [] then []
    else (if now - w[0] < RateLimitWindow then [w[0]] else []) + Recent(w[1..], now)
  }

  lemma {:induction false} RecentOfAllRecent(w: seq<Timestamp>, now: Timestamp)
    requires forall i :: 0 <= i < |w| ==> now - w[i] < RateLimitWindow
    ensures Recent(w, now) == w
  {
    if w != [] {
      RecentOfAllRecent(w[1..], now);
      assert [w[0]] + w[1..] == w;
    }
  }

  /** On a window sorted oldest first, the trim keeps exactly the entries that
      are less than a window old. */
  lemma {:induction false} PurgeKeepsRecent(w: seq<Timestamp>, now: Timestamp)
    requires Sorted(w)
    ensures Purge(w, now) == Recent(w, now)
  {
    if w != [] {
      if now - w[0] >= RateLimitWindow {
        PurgeKeepsRecent(w[1..], now);
      } else {
        assert forall i :: 0 <= i < |w| ==> w[0] <= w[i];
        RecentOfAllRecent(w, now);
      }
    }
  }

  /** After the trim of a sorted window, every remaining entry `t` satisfies
      `now - t < RateLimitWindow`; an entry exactly one window old is gone. */
  lemma AllRemainingAreRecent(w: seq<Timestamp>, now: Timestamp)
    requires Sorted(w)
    ensures forall i :: 0 <= i < |Purge(w, now)| ==> now - Purge(w, now)[i] < RateLimitWindow
  {
    var r := Purge(w, now);
    var d := |w| - |r|;
    forall i | 0 <= i < |r|
      ensures now - r[i] < RateLimitWindow
    {
      assert r[0] == w[d] && r[i] == w[d + i];
    }
  }

  /** Admission keeps a sorted window sorted, provided the clock has not gone
      back before its newest entry. */
  lemma DecideKeepsSorted(w: seq<Timestamp>, now: Timestamp)
    requires Sorted(w)
    requires w != [] ==> w[|w| - 1] <= now
    ensures Sorted(Decide(w, now).window)
  {
    var t := Purge(w, now);
    SuffixSorted(w, |w| - |t|);
    if |t| < MaxRequests {
      assert t != [] ==> t[|t| - 1] == w[|w| - 1];
      AppendSorted(t, now);
    }
  }

  lemma SuffixSorted(w: seq<Timestamp>, k: nat)
    requires Sorted(w) && k <= |w|
    ensures Sorted(w[k..])
  {
    assert forall i :: 0 <= i < |w| - k ==> w[k..][i] == w[k + i];
  }

  lemma AppendSorted(t: seq<Timestamp>, x: Timestamp)
    requires Sorted(t)
    requires t != [] ==> t[|t| - 1] <= x
    ensures Sorted(t + [x])
  {
    var r := t + [x];
    forall i, j | 0 <= i < j < |r|
      ensures r[i] <= r[j]
    {
      if j == |t| && i < |t| - 1 {
        assert t[i] <= t[|t| - 1];
      }
    }
  }

  /** The reported retry-after lies between 1 and 60 seconds when no entry of
      the window lies in the future. */
  lemma RetryAfterWithinWindow(w: seq<Timestamp>, now: Timestamp)
    requires forall i :: 0 <= i < |w| ==> w[i] <= now
    requires Decide(w, now).decision.Rejected?
    ensures 0 < Decide(w, now).decision.waitMs <= RateLimitWindow
    ensures 1 <= Decide(w, now).decision.retryAfterSeconds <= RateLimitWindow / 1000
  {
    var t := Purge(w, now);
    assert t[0] == w[|w| - |t|];
  }

  /** A full window of recent admissions rejects the next call. */
  lemma FullWindowRejects(w: seq<Timestamp>, now: Timestamp)
    requires |w| == MaxRequests
    requires now - w[0] < RateLimitWindow
    ensures Decide(w, now).decision.Rejected?
    ensures Decide(w, now).window == w
  {
  }

  /** Once the oldest admission has expired, a full window admits again. */
  lemma ExpiredOldestReadmits(w: seq<Timestamp>, now: Timestamp)
    requires |w| == MaxRequests
    requires now - w[0] >= RateLimitWindow
    ensures Decide(w, now).decision.Admitted?
  {
  }

  /** A quota used up in one burst, and a call one second later: it is
      rejected with a wait of 59 seconds. */
  lemma BurstThenRetryAfter59(w: seq<Timestamp>, t0: Timestamp)
    requires |w| == MaxRequests
    requires forall i :: 0 <= i < |w| ==> w[i] == t0
    ensures Decide(w, t0 + 1000).decision == Rejected(59000, 59)
  {
    assert Purge(w, t0 + 1000) == w;
  }

  lemma OnlyOneWindowChanges(m: map<ShopId, seq<Timestamp>>, shopId: ShopId, w: seq<Timestamp>)
    ensures forall k :: k != shopId ==> WindowOf(m[shopId := w], k) == WindowOf(m, k)
  {
  }

  /** The body of `rateLimit` on one shop's window: the trim loop, then the
      quota check, then the rejection or the append of `now`. */
  method Admit(w: seq<Timestamp>, now: Timestamp) returns (d: Decision, window: seq<Timestamp>)
    ensures Decide(w, now) == Step(d, window)
  {
    var t := TrimExpired(w, now);
    if |t| >= MaxRequests {
      // the shifts were made on the stored array, so the trim outlives the
      // rejection (a shop with no entry yet has nothing to reject)
      var waitMs := RateLimitWindow - (now - t[0]);
      d, window := Rejected(waitMs, CeilSeconds(waitMs)), t;
    } else {
      d, window := Admitted, t + [now];
    }
    DecideIs(w, now, t, d, window);
  }

  /** What `Decide` gives, told apart by the length of the trimmed window. */
  lemma DecideIs(w: seq<Timestamp>, now: Timestamp, t: seq<Timestamp>, d: Decision, window: seq<Timestamp>)
    requires t == Purge(w, now)
    requires |t| >= MaxRequests ==>
               d == Rejected(RateLimitWindow - (now - t[0]), CeilSeconds(RateLimitWindow - (now - t[0]))) && window == t
    requires |t| < MaxRequests ==> d == Admitted && window == t + [now]
    ensures Decide(w, now) == Step(d, window)
  {
  }

  /** Setting one window within the quota keeps every window within it. */
  lemma BoundedUpdate(m: map<ShopId, seq<Timestamp>>, shopId: ShopId, w: seq<Timestamp>, m': map<ShopId, seq<Timestamp>>)
    requires forall k :: k in m ==> |m[k]| <= MaxRequests
    requires |w| <= MaxRequests && m' == m[shopId := w]
    ensures forall k :: k in m' ==> |m'[k]| <= MaxRequests
  {
  }

  /** The limiter's state: the window of every shop seen so far. */
  class RateLimiter {
    var requests: map<ShopId, seq<Timestamp>>

    ghost predicate Valid()
      reads this
    {
      forall k :: k in requests ==> |requests[k]| <= MaxRequests
    }

    constructor ()
      ensures Valid() && requests == map[]
    {
      requests := map[];
    }

    /** `rateLimit(shopId)` at time `now`. The trim persists even when the
        call is rejected, since the trimmed window is the stored one; only
        the entry of `shopId` may change. */
    method RateLimit(shopId: ShopId, now: Timestamp) returns (d: Decision)
      requires Valid()
      modifies this
      ensures Valid()
      ensures var step := Decide(WindowOf(old(requests), shopId), now);
        d == step.decision && requests == old(requests)[shopId := step.window]
      ensures forall k :: k != shopId ==> WindowOf(requests, k) == WindowOf(old(requests), k)
      ensures d.Admitted? ==> |WindowOf(requests, shopId)| == |Purge(WindowOf(old(requests), shopId), now)| + 1
    {
      var w := WindowOf(requests, shopId);
      var window;
      d, window := Admit(w, now);
      assert |w| <= MaxRequests;
      BoundedUpdate(requests, shopId, window, requests[shopId := window]);
      requests := requests[shopId := window];
      OnlyOneWindowChanges(old(requests), shopId, Decide(w, now).window);
    }
  }
}

/**
 The sliding-window limiter. Redis keeps one sorted set per endpoint whose members are
 the milliseconds of earlier calls; a pipeline runs as one transaction. The clock is one
 non-decreasing millisecond counter shared by the caller and the store.
*/
module RateLimiter {
  const WINDOW_MS := 1000
  const KEY_TTL_MS := 10 * 1000

  /** A sorted set whose member and score are the same number, and when its key expires. */
  datatype Key = Key(members: set<int>, deadline: int)
  type Store = map<string, Key>

  datatype Call = Call(endpoint: string, time: int)

  /** What a command sent at `now` finds under a key. */
  function Members(store: Store, endpoint: string, now: int): set<int>
  {
    if endpoint in store && now < store[endpoint].deadline then store[endpoint].members else {}
  }

  /** The count the pipeline reports: what is left after the removal up to `now - WINDOW_MS`. */
  function Pruned(members: set<int>, now: int): set<int>
  {
    set t | t in members && t > now - WINDOW_MS
  }

  class Limiter {
    const limit: int
    var store: Store

    constructor (limit: int)
      ensures this.limit == limit && store == map[]
    {
      this.limit := limit;
      store := map[];
    }

    method IsAllowed(endpoint: string, nowMs: int) returns (allowed: bool)
      modifies this
      ensures store == After(old(store), Call(endpoint, nowMs))
      ensures allowed == Verdict(limit, old(store), Call(endpoint, nowMs))
    {
      var winStart := nowMs - WINDOW_MS;
      var members := Members(store, endpoint, nowMs);
      members := set t | t in members && !(t <= winStart);
      assert members == Pruned(Members(store, endpoint, nowMs), nowMs);
      hide Members, Pruned;
      var count := |members|;
      members := members + {nowMs};
      store := store[endpoint := Key(members, nowMs + KEY_TTL_MS)];
      if count >= limit {
        return false;
      }
      return true;
    }

    /** A whole history of calls, one after the other. */
    method Serve(calls: seq<Call>) returns (verdicts: seq<bool>)
      requires store == map[] && Monotone(calls)
      modifies this
      ensures |verdicts| == |calls|
      ensures forall i :: 0 <= i < |calls| ==>
                (verdicts[i] <==> |Recent(calls[..i], calls[i].endpoint, calls[i].time)| < limit)
    {
      hide Verdict, Recent, After, Members, Pruned, Monotone;
      verdicts := [];
      for i := 0 to |calls|
        invariant |verdicts| == i && store == StoreAfter(calls[..i])
        invariant forall j :: 0 <= j < i ==> verdicts[j] == Allowed(limit, calls, j)
      {
        var allowed := IsAllowed(calls[i].endpoint, calls[i].time);
        assert calls[..i + 1] == calls[..i] + [calls[i]];
        verdicts := verdicts + [allowed];
      }
      forall i | 0 <= i < |calls|
        ensures verdicts[i] <==> |Recent(calls[..i], calls[i].endpoint, calls[i].time)| < limit
      {
        AllowedIffRecent(limit, calls, i);
      }
    }
  }

  // --- Specification -------------------------------------------------------------

  function After(store: Store, call: Call): Store
  {
    store[call.endpoint := Key(Pruned(Members(store, call.endpoint, call.time), call.time) + {call.time},
                               call.time + 10_000)]
  }

  predicate Verdict(limit: int, store: Store, call: Call)
  {
    |Pruned(Members(store, call.endpoint, call.time), call.time)| < limit
  }

  function StoreAfter(calls: seq<Call>): Store
  {
    if calls == [] then map[] else After(StoreAfter(calls[..|calls| - 1]), calls[|calls| - 1])
  }

  predicate Allowed(limit: int, calls: seq<Call>, i: int)
    requires 0 <= i < |calls|
  {
    Verdict(limit, StoreAfter(calls[..i]), calls[i])
  }

  predicate Monotone(calls: seq<Call>)
  {
    forall i, j :: 0 <= i < j < |calls| ==> calls[i].time <= calls[j].time
  }

  /** From the history alone: the distinct milliseconds of an endpoint's calls in (now - 1000, now]. */
  function Recent(calls: seq<Call>, endpoint: string, now: int): set<int>
  {
    set i | 0 <= i < |calls| && calls[i].endpoint == endpoint && now - 1000 < calls[i].time <= now :: calls[i].time
  }

  /** What is stored under an endpoint's key after a history. */
  ghost predicate KeyMatches(store: Store, calls: seq<Call>, endpoint: string)
  {
    if endpoint in store then
      exists last ::
        && 0 <= last < |calls| && calls[last].endpoint == endpoint
        && (forall j :: last < j < |calls| ==> calls[j].endpoint != endpoint)
        && store[endpoint] == Key(Recent(calls, endpoint, calls[last].time), calls[last].time + 10_000)
    else forall j :: 0 <= j < |calls| ==> calls[j].endpoint != endpoint
  }

  /** Expiry and pruning lose nothing a later call can see. */
  lemma PrunedIsRecent(store: Store, calls: seq<Call>, endpoint: string, now: int)
    requires Monotone(calls) && KeyMatches(store, calls, endpoint)
    requires forall j :: 0 <= j < |calls| ==> calls[j].time <= now
    ensures Pruned(Members(store, endpoint, now), now) == Recent(calls, endpoint, now)
  {
  }

  lemma KeyStillMatches(store: Store, calls: seq<Call>, call: Call, endpoint: string)
    requires Monotone(calls + [call])
    requires KeyMatches(store, calls, endpoint)
    ensures KeyMatches(After(store, call), calls + [call], endpoint)
  {
    var longer, store' := calls + [call], After(store, call);
    assert forall j :: 0 <= j < |calls| ==> longer[j] == calls[j];
    assert longer[|calls|] == call;
    if endpoint == call.endpoint {
      PrunedIsRecent(store, calls, endpoint, call.time) by {
        assert forall j :: 0 <= j < |calls| ==> longer[j].time <= longer[|calls|].time;
      }
      RecentLonger(calls, call, endpoint, call.time);
      assert store'[endpoint] == Key(Recent(longer, endpoint, longer[|calls|].time), longer[|calls|].time + 10_000);
    } else if endpoint in store {
      var last :| && 0 <= last < |calls| && calls[last].endpoint == endpoint
                  && (forall j :: last < j < |calls| ==> calls[j].endpoint != endpoint)
                  && store[endpoint] == Key(Recent(calls, endpoint, calls[last].time), calls[last].time + 10_000);
      RecentLonger(calls, call, endpoint, calls[last].time);
      assert longer[last].endpoint == endpoint;
    }
  }

  lemma RecentLonger(calls: seq<Call>, call: Call, endpoint: string, now: int)
    ensures Recent(calls + [call], endpoint, now) ==
            Recent(calls, endpoint, now) +
            (if call.endpoint == endpoint && now - 1000 < call.time <= now then {call.time} else {})
  {
    var longer := calls + [call];
    assert longer[|calls|] == call;
    assert forall j :: 0 <= j < |calls| ==> longer[j] == calls[j];
  }

  lemma {:induction false} StoreMatches(calls: seq<Call>, endpoint: string)
    requires Monotone(calls)
    ensures KeyMatches(StoreAfter(calls), calls, endpoint)
  {
    if calls != [] {
      var front := calls[..|calls| - 1];
      assert calls == front + [calls[|calls| - 1]];
      StoreMatches(front, endpoint);
      KeyStillMatches(StoreAfter(front), front, calls[|calls| - 1], endpoint);
    }
  }

  /** The pruned, expiring store decides exactly as the full history of calls, allowed or not. */
  lemma AllowedIffRecent(limit: int, calls: seq<Call>, i: int)
    requires Monotone(calls) && 0 <= i < |calls|
    ensures Allowed(limit, calls, i) <==> |Recent(calls[..i], calls[i].endpoint, calls[i].time)| < limit
  {
    StoreMatches(calls[..i], calls[i].endpoint);
    PrunedIsRecent(StoreAfter(calls[..i]), calls[..i], calls[i].endpoint, calls[i].time);
  }

  // --- What the limit guarantees ---------------------------------------------------

  /** The distinct milliseconds of [start, start + 1000) in which the endpoint had an allowed call. */
  ghost function AllowedIn(limit: int, calls: seq<Call>, endpoint: string, start: int): set<int>
  {
    set i | 0 <= i < |calls| && calls[i].endpoint == endpoint && start <= calls[i].time < start + 1000
            && Allowed(limit, calls, i) :: calls[i].time
  }

  lemma EmptyOrNot(s: set<int>)
    ensures s == {} || exists t :: t in s
  {
    if forall t: int :: t !in s { assert s == {}; }
  }

  lemma {:induction false} LargestOf(s: set<int>) returns (m: int)
    requires |s| > 0
    ensures m in s && forall t <- s :: t <= m
  {
    EmptyOrNot(s);
    var first :| first in s;
    var rest := s - {first};
    m := first;
    if |rest| > 0 {
      var other := LargestOf(rest);
      m := if other > first then other else first;
    }
    assert forall t <- s :: t == first || t in rest;
  }

  lemma {:induction false} SubsetSize(a: set<int>, b: set<int>)
    requires a <= b
    ensures |a| <= |b|
  {
    if |a| > 0 {
      EmptyOrNot(a);
      var x :| x in a;
      SubsetSize(a - {x}, b - {x});
    }
  }

  /** No window of 1000 ms, wherever it starts, has allowed calls in more than `limit` distinct milliseconds. */
  lemma WindowBound(limit: int, calls: seq<Call>, endpoint: string, start: int)
    requires Monotone(calls)
    ensures |AllowedIn(limit, calls, endpoint, start)| <= if limit > 0 then limit else 0
  {
    var allowed := AllowedIn(limit, calls, endpoint, start);
    if |allowed| > 0 {
      var m := LargestOf(allowed);
      var i :| 0 <= i < |calls| && calls[i].endpoint == endpoint && calls[i].time == m && Allowed(limit, calls, i);
      AllowedIffRecent(limit, calls, i);
      EarlierAreRecent(limit, calls, endpoint, start, i);
      SubsetSize(allowed - {m}, Recent(calls[..i], endpoint, m));
    }
  }

  lemma EarlierAreRecent(limit: int, calls: seq<Call>, endpoint: string, start: int, i: int)
    requires Monotone(calls) && 0 <= i < |calls|
    requires calls[i].time in AllowedIn(limit, calls, endpoint, start)
    requires forall t <- AllowedIn(limit, calls, endpoint, start) :: t <= calls[i].time
    ensures AllowedIn(limit, calls, endpoint, start) - {calls[i].time} <= Recent(calls[..i], endpoint, calls[i].time)
  {
    hide Allowed;
    forall t | t in AllowedIn(limit, calls, endpoint, start) - {calls[i].time}
      ensures t in Recent(calls[..i], endpoint, calls[i].time)
    {
      var j :| 0 <= j < |calls| && calls[j].endpoint == endpoint && calls[j].time == t;
      assert calls[..i][j] == calls[j];
    }
  }

  // --- Milliseconds against chunks -------------------------------------------------

  /** The number of an endpoint's calls in (now - 1000, now]: what "chunks per second" would count. */
  function CallsIn(calls: seq<Call>, endpoint: string, now: int): (n: nat)
  {
    if calls == [] then 0
    else
      var last := calls[|calls| - 1];
      CallsIn(calls[..|calls| - 1], endpoint, now) +
      if last.endpoint == endpoint && now - 1000 < last.time <= now then 1 else 0
  }

  ghost predicate DistinctMilliseconds(calls: seq<Call>, endpoint: string, now: int)
  {
    forall j, k ::
      (0 <= j < k < |calls| && calls[j].endpoint == endpoint == calls[k].endpoint
       && now - 1000 < calls[j].time <= now) ==> calls[j].time != calls[k].time
  }

  lemma NoCalls(endpoint: string, now: int)
    ensures Recent([], endpoint, now) == {} && DistinctMilliseconds([], endpoint, now)
  {
  }

  lemma Collides(front: seq<Call>, last: Call, endpoint: string, now: int)
    requires last.endpoint == endpoint && now - 1000 < last.time <= now && last.time in Recent(front, endpoint, now)
    ensures !DistinctMilliseconds(front + [last], endpoint, now)
  {
    var calls := front + [last];
    var j :| 0 <= j < |front| && front[j].endpoint == endpoint && front[j].time == last.time;
    assert calls[j] == front[j] && calls[|front|] == last;
  }

  lemma {:induction false} CollapseIff(calls: seq<Call>, endpoint: string, now: int)
    ensures |Recent(calls, endpoint, now)| <= CallsIn(calls, endpoint, now)
    ensures |Recent(calls, endpoint, now)| == CallsIn(calls, endpoint, now) <==>
              DistinctMilliseconds(calls, endpoint, now)
  {
    hide Recent, DistinctMilliseconds;
    if calls == [] {
      NoCalls(endpoint, now);
    } else {
      var front, last := calls[..|calls| - 1], calls[|calls| - 1];
      assert calls == front + [last];
      CollapseIff(front, endpoint, now);
      RecentLonger(front, last, endpoint, now);
      var recent := Recent(front, endpoint, now);
      if last.endpoint == endpoint && now - 1000 < last.time <= now && last.time in recent {
        Collides(front, last, endpoint, now);
        assert recent + {last.time} == recent;
      } else {
        DistinctLonger(front, last, endpoint, now);
      }
    }
  }

  lemma DistinctLonger(front: seq<Call>, last: Call, endpoint: string, now: int)
    requires !(last.endpoint == endpoint && now - 1000 < last.time <= now
               && last.time in Recent(front, endpoint, now))
    ensures DistinctMilliseconds(front + [last], endpoint, now) <==> DistinctMilliseconds(front, endpoint, now)
  {
    var calls := front + [last];
    assert forall j :: 0 <= j < |front| ==> calls[j] == front[j];
    if DistinctMilliseconds(front, endpoint, now) {
      forall j, k | 0 <= j < k < |calls| && calls[j].endpoint == endpoint == calls[k].endpoint
                    && now - 1000 < calls[j].time <= now
        ensures calls[j].time != calls[k].time
      {
        if k == |front| {
          assert calls[j].time in Recent(front, endpoint, now);
        }
      }
    }
  }

  /**
   The limit is documented as chunks per second. A call is judged so, whatever the limit,
   if and only if no two of the endpoint's earlier calls in the window share a millisecond.
  */
  lemma CountsChunksIff(calls: seq<Call>, i: int)
    requires Monotone(calls) && 0 <= i < |calls|
    ensures var e, now := calls[i].endpoint, calls[i].time;
            (forall limit: int :: Allowed(limit, calls, i) <==> CallsIn(calls[..i], e, now) < limit)
            <==> DistinctMilliseconds(calls[..i], e, now)
  {
    var e, now := calls[i].endpoint, calls[i].time;
    CollapseIff(calls[..i], e, now);
    forall limit: int ensures Allowed(limit, calls, i) <==> |Recent(calls[..i], e, now)| < limit {
      AllowedIffRecent(limit, calls, i);
    }
    var count := CallsIn(calls[..i], e, now);
    assert Allowed(count, calls, i) <==> |Recent(calls[..i], e, now)| < count;
  }

  /** Under one limit, a call is judged as its chunks would be. */
  ghost predicate JudgedByChunks(limit: int, calls: seq<Call>, i: int)
    requires 0 <= i < |calls|
  {
    Allowed(limit, calls, i) <==> CallsIn(calls[..i], calls[i].endpoint, calls[i].time) < limit
  }

  /**
   Under a given limit, a whole history is judged by its chunks if and only if no call that
   has the limit of earlier chunks in its window has them in fewer milliseconds.
  */
  lemma HistoryCountsChunksIff(limit: int, calls: seq<Call>)
    requires Monotone(calls)
    ensures (forall i :: 0 <= i < |calls| ==> JudgedByChunks(limit, calls, i)) <==>
            (forall i :: 0 <= i < |calls| && CallsIn(calls[..i], calls[i].endpoint, calls[i].time) >= limit ==>
               |Recent(calls[..i], calls[i].endpoint, calls[i].time)| >= limit)
  {
    forall i | 0 <= i < |calls|
      ensures JudgedByChunks(limit, calls, i) <==>
              (CallsIn(calls[..i], calls[i].endpoint, calls[i].time) >= limit ==>
                 |Recent(calls[..i], calls[i].endpoint, calls[i].time)| >= limit)
    {
      AllowedIffRecent(limit, calls, i);
      CollapseIff(calls[..i], calls[i].endpoint, calls[i].time);
    }
  }

  /** The documented chunks per second are what every history is judged by if and only if the limit is at most 1. */
  lemma LimitCountsChunksIff(limit: int)
    ensures (forall calls: seq<Call>, i :: Monotone(calls) && 0 <= i < |calls| ==> JudgedByChunks(limit, calls, i))
            <==> limit <= 1
  {
    if limit <= 1 {
      forall calls: seq<Call>, i | Monotone(calls) && 0 <= i < |calls| ensures JudgedByChunks(limit, calls, i) {
        AllowedIffRecent(limit, calls, i);
        CollapseIff(calls[..i], calls[i].endpoint, calls[i].time);
        SomeMillisecond(calls[..i], calls[i].endpoint, calls[i].time);
      }
    } else {
      var calls := Burst(limit + 1);
      BurstIsAllowed(limit, calls, limit);
      BurstCounts(limit + 1, limit);
      assert !JudgedByChunks(limit, calls, limit);
    }
  }

  lemma {:induction false} SomeMillisecond(calls: seq<Call>, endpoint: string, now: int)
    ensures CallsIn(calls, endpoint, now) >= 1 ==> |Recent(calls, endpoint, now)| >= 1
  {
    if calls != [] {
      var front, last := calls[..|calls| - 1], calls[|calls| - 1];
      assert calls == front + [last];
      SomeMillisecond(front, endpoint, now);
      RecentLonger(front, last, endpoint, now);
      SubsetSize(Recent(front, endpoint, now), Recent(calls, endpoint, now));
      if last.endpoint == endpoint && now - 1000 < last.time <= now {
        SubsetSize({last.time}, Recent(calls, endpoint, now));
      }
    }
  }

  /** n calls of one endpoint in one millisecond. */
  function Burst(n: nat): (calls: seq<Call>)
    ensures |calls| == n
  {
    seq(n, i => Call("", 0))
  }

  lemma {:induction false} BurstCounts(n: nat, i: nat)
    requires i <= n
    ensures CallsIn(Burst(n)[..i], "", 0) == i
  {
    if i > 0 {
      assert Burst(n)[..i][..i - 1] == Burst(n)[..i - 1];
      BurstCounts(n, i - 1);
    }
  }

  /** Within one millisecond any number of calls is allowed as soon as the limit is at least 2. */
  lemma BurstIsAllowed(limit: int, calls: seq<Call>, i: int)
    requires limit >= 2 && 0 <= i < |calls|
    requires forall j :: 0 <= j < |calls| ==> calls[j] == calls[0]
    ensures Allowed(limit, calls, i)
  {
    AllowedIffRecent(limit, calls, i);
    SubsetSize(Recent(calls[..i], calls[i].endpoint, calls[i].time), {calls[0].time});
  }
}

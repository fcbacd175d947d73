/** The sliding request window of the Authority's named-pipe server. A request's time is read before
    the lock is taken, so one client's times may reach the window out of order. */
module RateWindow {
  import opened Common

  const WINDOW := 60.0

  /** The queue without the leading times that have left the window. */
  function Recent(times: seq<real>, now: real): seq<real> {
    if times != [] && times[0] < now - WINDOW then Recent(times[1..], now) else times
  }

  /** The queue after a request, accepted or not. */
  function Pushed(queue: seq<real>, now: real, ok: bool): seq<real> {
    Recent(queue, now) + if ok then [now] else []
  }

  /** How many times lie in a closed interval. */
  function CountIn(times: seq<real>, from: real, to: real): nat {
    if times == [] then 0
    else CountIn(times[..|times| - 1], from, to) + (if from <= times[|times| - 1] <= to then 1 else 0)
  }

  /** One client's accepted times in the order of the lock, the latest time seen when each was
      accepted, and the latest seen at all. */
  datatype Trace = Trace(accepted: seq<real>, marks: seq<real>, latest: real)

  /** The request that is the limit-th or more before another had left its window. */
  ghost predicate Spaced(t: Trace, limit: nat) {
    && |t.marks| == |t.accepted|
    && forall j, k :: 0 <= j && j + limit <= k < |t.accepted| ==> t.accepted[j] < t.marks[k] - WINDOW
  }

  /** The queue is the end of the accepted times; what it dropped had left the window. */
  ghost predicate Windowed(t: Trace, queue: seq<real>) {
    && |queue| <= |t.accepted| && queue == t.accepted[|t.accepted| - |queue|..]
    && forall k :: 0 <= k < |t.accepted| - |queue| ==> t.accepted[k] < t.latest - WINDOW
  }

  function Of(m: map<Id, seq<real>>, client: Id): seq<real> {
    if client in m then m[client] else []
  }

  function Later(a: real, b: real): real {
    if a < b then b else a
  }

  function TraceOf(traces: map<Id, Trace>, client: Id, now: real): Trace {
    if client in traces then traces[client] else Trace([], [], now)
  }

  /** A request seen, and accepted or not. */
  function Extended(t: Trace, now: real, ok: bool): Trace {
    var latest := Later(t.latest, now);
    if ok then Trace(t.accepted + [now], t.marks + [latest], latest) else t.(latest := latest)
  }

  class RateLimiter {
    const limit: nat
    var requestTimes: map<Id, seq<real>>
    ghost var traces: map<Id, Trace>

    constructor (requestsPerMinute: nat)
      ensures Valid() && limit == requestsPerMinute && traces == map[] && requestTimes == map[]
    {
      limit, requestTimes, traces := requestsPerMinute, map[], map[];
    }

    ghost predicate Valid()
      reads this
    {
      && requestTimes.Keys == traces.Keys
      && forall c :: c in traces ==> Spaced(traces[c], limit) && Windowed(traces[c], requestTimes[c])
    }

    /** `_rate_limit`, for any time at all. */
    method RateLimit(client: Id, now: real) returns (ok: bool)
      requires Valid()
      modifies this
      ensures Valid()
      ensures ok <==> |Recent(Of(old(requestTimes), client), now)| < limit
      ensures traces == old(traces)[client := Extended(TraceOf(old(traces), client, now), now, ok)]
      ensures requestTimes ==
        old(requestTimes)[client := Pushed(Of(old(requestTimes), client), now, ok)]
    {
      hide Windowed, Recent, Spaced;
      ghost var trace := TraceOf(traces, client, now);
      NothingIsWindowed(now, limit);
      var queue := Of(requestTimes, client);
      var requests := Prune(queue, now);
      ok := |requests| < limit;
      ExtendedIsWindowed(trace, queue, now, limit, ok);
      if ok {
        requests := requests + [now];
      } else {
        assert requests + [] == requests;
      }
      traces := traces[client := Extended(trace, now, ok)];
      requestTimes := requestTimes[client := requests];
    }

    /** The loop that drops what has left the window. */
    method Prune(queue: seq<real>, now: real) returns (requests: seq<real>)
      ensures requests == Recent(queue, now)
    {
      requests := queue;
      while requests != [] && requests[0] < now - WINDOW
        invariant Recent(requests, now) == Recent(queue, now)
        decreases |requests|
      {
        requests := requests[1..];
      }
    }
  }

  lemma {:induction false} RecentIsSuffix(times: seq<real>, now: real)
    ensures var n := |times| - |Recent(times, now)|;
      && 0 <= n && Recent(times, now) == times[n..]
      && (forall k :: 0 <= k < n ==> times[k] < now - WINDOW)
      && (n < |times| ==> now - WINDOW <= times[n])
  {
    if times != [] && times[0] < now - WINDOW {
      RecentIsSuffix(times[1..], now);
      var n := |times| - |Recent(times, now)|;
      assert forall k :: 0 < k < |times| ==> times[k] == times[1..][k - 1];
    }
  }

  lemma NothingIsWindowed(now: real, limit: nat)
    ensures Windowed(Trace([], [], now), []) && Spaced(Trace([], [], now), limit)
  {
  }

  /** What pruning has dropped, now or before, is older than the window. */
  lemma DroppedIsOld(t: Trace, queue: seq<real>, now: real)
    requires Windowed(t, queue)
    ensures |Recent(queue, now)| <= |t.accepted|
    ensures Recent(queue, now) == t.accepted[|t.accepted| - |Recent(queue, now)|..]
    ensures forall k :: 0 <= k < |t.accepted| - |Recent(queue, now)| ==> t.accepted[k] < Later(t.latest, now) - WINDOW
  {
    RecentIsSuffix(queue, now);
    var dropped := |t.accepted| - |queue|;
    var cut := |t.accepted| - |Recent(queue, now)|;
    hide Recent;
    forall k | 0 <= k < cut
      ensures t.accepted[k] < Later(t.latest, now) - WINDOW
    {
      assert k >= dropped ==> t.accepted[k] == queue[k - dropped];
    }
  }

  lemma PushedIsWindowed(t: Trace, queue: seq<real>, now: real, ok: bool)
    requires Windowed(t, queue)
    ensures Windowed(Extended(t, now, ok), Pushed(queue, now, ok))
  {
    DroppedIsOld(t, queue, now);
    hide Recent;
    if !ok {
      assert Pushed(queue, now, ok) == Recent(queue, now);
    }
  }

  /** Pruning and accepting keep the queue an end of the history and the spacing of the history. */
  lemma ExtendedIsWindowed(t: Trace, queue: seq<real>, now: real, limit: nat, ok: bool)
    requires Windowed(t, queue) && Spaced(t, limit) && (ok <==> |Recent(queue, now)| < limit)
    ensures Windowed(Extended(t, now, ok), Pushed(queue, now, ok))
    ensures Spaced(Extended(t, now, ok), limit)
  {
    PushedIsWindowed(t, queue, now, ok);
    DroppedIsOld(t, queue, now);
    hide Recent, Pushed, Windowed;
  }

  lemma {:induction false} CountSkips(times: seq<real>, from: real, to: real, m: nat)
    requires m <= |times| && forall k :: 0 <= k < m ==> times[k] < from
    ensures CountIn(times, from, to) <= |times| - m
  {
    if m < |times| {
      CountSkips(times[..|times| - 1], from, to, m);
    } else if times != [] {
      CountSkips(times[..|times| - 1], from, to, m - 1);
    }
  }

  /** No accepted request was later than the latest one seen before it by more than this. */
  ghost predicate LateBy(t: Trace, skew: real) {
    |t.marks| == |t.accepted| && forall k :: 0 <= k < |t.accepted| ==> t.marks[k] <= t.accepted[k] + skew
  }

  /** When no request reaches the window more than some delay late, no closed interval shorter than
      the window by that delay holds more accepted requests than the limit. */
  lemma {:induction false} WindowHoldsAtMostLimit(t: Trace, limit: nat, skew: real, from: real, to: real)
    requires Spaced(t, limit) && LateBy(t, skew) && to - from <= WINDOW - skew
    ensures CountIn(t.accepted, from, to) <= limit
    decreases |t.accepted|
  {
    var times := t.accepted;
    var n := |times| - 1;
    if |times| <= limit {
      CountSkips(times, from, to, 0);
    } else if from <= times[n] <= to {
      CountSkips(times, from, to, n - limit + 1);
    } else {
      WindowHoldsAtMostLimit(Trace(times[..n], t.marks[..n], t.latest), limit, skew, from, to);
    }
  }

  // -------------------------------------------------- decisions over requests

  /** The accepted times of a client, in the order of the lock. */
  function AcceptedBy(requests: seq<(Id, real)>, accepted: seq<bool>, client: Id): seq<real>
    requires |accepted| == |requests|
  {
    if requests == [] then []
    else
      var n := |requests| - 1;
      AcceptedBy(requests[..n], accepted[..n], client)
      + (if requests[n].0 == client && accepted[n] then [requests[n].1] else [])
  }

  /** The client's queue after the requests. */
  function Queued(requests: seq<(Id, real)>, accepted: seq<bool>, client: Id): seq<real>
    requires |accepted| == |requests|
  {
    if requests == [] then []
    else
      var n := |requests| - 1;
      var queue := Queued(requests[..n], accepted[..n], client);
      if requests[n].0 != client then queue else Pushed(queue, requests[n].1, accepted[n])
  }

  /** The accepted times of the client of a request, before that request. */
  function HistoryAt(requests: seq<(Id, real)>, accepted: seq<bool>, n: nat): seq<real>
    requires n < |requests| && n <= |accepted|
  {
    AcceptedBy(requests[..n], accepted[..n], requests[n].0)
  }

  /** A request is accepted exactly when its client's pruned queue is shorter than the limit. */
  predicate Decided(requests: seq<(Id, real)>, accepted: seq<bool>, n: nat, limit: nat)
    requires n < |requests| && n < |accepted|
  {
    accepted[n] <==> |Recent(Queued(requests[..n], accepted[..n], requests[n].0), requests[n].1)| < limit
  }

  /** What a decision means when no request of the client is overtaken by more than the skew: an
      accepted one finds fewer than the limit in the shorter window, a refused one finds the limit
      in the longer one. */
  predicate Justified(history: seq<real>, now: real, ok: bool, limit: nat, skew: real) {
    if ok then CountIn(history, now - WINDOW + skew, now + skew) < limit
    else CountIn(history, now - WINDOW - skew, now + skew) >= limit
  }

  /** The decision on a request, from the queue and from the client's accepted times. */
  ghost predicate Settled(requests: seq<(Id, real)>, accepted: seq<bool>, n: nat, limit: nat)
    requires n < |requests| && n < |accepted|
  {
    && Decided(requests, accepted, n, limit)
    && JustifiedForAll(requests[..n + 1], HistoryAt(requests, accepted, n), requests[n], accepted[n], limit)
  }

  ghost predicate JustifiedForAll(requests: seq<(Id, real)>, history: seq<real>, r: (Id, real), ok: bool, limit: nat) {
    forall skew :: Overtaken(requests, r.0, skew) ==> Justified(history, r.1, ok, limit, skew)
  }

  /** The time of the client's latest request, by the clock. */
  ghost predicate Latest(requests: seq<(Id, real)>, client: Id, time: real) {
    (client, time) in requests && forall r :: r in requests && r.0 == client ==> r.1 <= time
  }

  /** No request of the client reaches the lock after one that is more than the skew later. */
  ghost predicate Overtaken(requests: seq<(Id, real)>, client: Id, skew: real) {
    && 0.0 <= skew
    && forall j, k :: 0 <= j < k < |requests| && requests[j].0 == requests[k].0 == client ==>
         requests[j].1 <= requests[k].1 + skew
  }

  lemma OvertakenBefore(requests: seq<(Id, real)>, n: nat, client: Id, skew: real)
    requires n <= |requests| && Overtaken(requests, client, skew)
    ensures Overtaken(requests[..n], client, skew)
  {
    var init := requests[..n];
    assert forall k :: 0 <= k < n ==> init[k] == requests[k];
  }

  lemma {:induction false} AcceptedWereRequested(requests: seq<(Id, real)>, accepted: seq<bool>, client: Id, k: nat)
    requires |accepted| == |requests| && k < |AcceptedBy(requests, accepted, client)|
    ensures (client, AcceptedBy(requests, accepted, client)[k]) in requests
  {
    var n := |requests| - 1;
    if k < |AcceptedBy(requests[..n], accepted[..n], client)| {
      AcceptedWereRequested(requests[..n], accepted[..n], client, k);
    } else {
      assert requests[n] == (client, requests[n].1);
    }
  }

  /** The accepted times are as much in order as the requests. */
  ghost predicate InOrder(times: seq<real>, skew: real) {
    forall j, k :: 0 <= j < k < |times| ==> times[j] <= times[k] + skew
  }

  lemma {:induction false} AcceptedInOrder(requests: seq<(Id, real)>, accepted: seq<bool>, client: Id, skew: real)
    requires |accepted| == |requests| && Overtaken(requests, client, skew)
    ensures InOrder(AcceptedBy(requests, accepted, client), skew)
  {
    if requests != [] {
      var n := |requests| - 1;
      OvertakenBefore(requests, n, client, skew);
      AcceptedInOrder(requests[..n], accepted[..n], client, skew);
      var times := AcceptedBy(requests[..n], accepted[..n], client);
      forall k | 0 <= k < |times| && requests[n].0 == client
        ensures times[k] <= requests[n].1 + skew
      {
        AcceptedWereRequested(requests[..n], accepted[..n], client, k);
        var j :| 0 <= j < n && requests[..n][j] == (client, times[k]);
        assert requests[j] == (client, times[k]);
      }
    }
  }

  lemma {:induction false} CountAtLeast(times: seq<real>, from: real, to: real, m: nat)
    requires m <= |times| && forall k :: m <= k < |times| ==> from <= times[k] <= to
    ensures CountIn(times, from, to) >= |times| - m
  {
    if m < |times| {
      CountAtLeast(times[..|times| - 1], from, to, m);
    }
  }

  /** The pruned queue lies between the accepted times of the shorter and of the longer window. */
  lemma QueueCounts(t: Trace, queue: seq<real>, now: real, skew: real)
    requires Windowed(t, queue) && InOrder(t.accepted, skew) && 0.0 <= skew && t.latest <= now + skew
    requires forall k :: 0 <= k < |t.accepted| ==> t.accepted[k] <= now + skew
    ensures CountIn(t.accepted, now - WINDOW + skew, now + skew) <= |Recent(queue, now)|
    ensures |Recent(queue, now)| <= CountIn(t.accepted, now - WINDOW - skew, now + skew)
  {
    RecentIsSuffix(queue, now);
    var dropped := |t.accepted| - |queue|;
    var cut := |t.accepted| - |Recent(queue, now)|;
    hide Recent;
    forall k | 0 <= k < cut
      ensures t.accepted[k] < now - WINDOW + skew
    {
      assert k >= dropped ==> t.accepted[k] == queue[k - dropped];
    }
    CountSkips(t.accepted, now - WINDOW + skew, now + skew, cut);
    forall k | cut <= k < |t.accepted|
      ensures now - WINDOW - skew <= t.accepted[k]
    {
      assert t.accepted[cut] == queue[cut - dropped];
    }
    CountAtLeast(t.accepted, now - WINDOW - skew, now + skew, cut);
  }

  /** The times that are no older than a bound. */
  function NotBefore(times: seq<real>, from: real): seq<real> {
    if times == [] then []
    else
      NotBefore(times[..|times| - 1], from)
      + (if from <= times[|times| - 1] then [times[|times| - 1]] else [])
  }

  lemma {:induction false} SuffixIsNotBefore(times: seq<real>, from: real, cut: nat)
    requires cut <= |times|
    requires forall k :: 0 <= k < cut ==> times[k] < from
    requires forall k :: cut <= k < |times| ==> from <= times[k]
    ensures NotBefore(times, from) == times[cut..]
  {
    if times != [] {
      var init := times[..|times| - 1];
      SuffixIsNotBefore(init, from, if cut == |times| then cut - 1 else cut);
    }
  }

  /** In order, the queue after a request is its client's accepted times of the last window. */
  lemma QueueIsWindow(t: Trace, queue: seq<real>, now: real, ok: bool)
    requires Windowed(t, queue) && InOrder(t.accepted, 0.0) && t.latest <= now
    requires forall k :: 0 <= k < |t.accepted| ==> t.accepted[k] <= now
    ensures var t' := Extended(t, now, ok);
      Pushed(queue, now, ok) == NotBefore(t'.accepted, t'.latest - WINDOW)
  {
    RecentIsSuffix(queue, now);
    var dropped := |t.accepted| - |queue|;
    var cut := |t.accepted| - |Recent(queue, now)|;
    hide Recent;
    forall k | 0 <= k < cut
      ensures t.accepted[k] < now - WINDOW
    {
      assert k >= dropped ==> t.accepted[k] == queue[k - dropped];
    }
    forall k | cut <= k < |t.accepted|
      ensures now - WINDOW <= t.accepted[k]
    {
      assert t.accepted[cut] == queue[cut - dropped];
    }
    SuffixIsNotBefore(t.accepted, now - WINDOW, cut);
    assert Recent(queue, now) == t.accepted[cut..];
    if ok {
      assert (t.accepted + [now])[..|t.accepted|] == t.accepted;
    } else {
      assert t.accepted[cut..] + [] == t.accepted[cut..];
    }
  }

  // ------------------------------------------------------------------ serving

  function AcceptedOf(traces: map<Id, Trace>, client: Id): seq<real> {
    if client in traces then traces[client].accepted else []
  }

  type Queues = map<Id, seq<real>>

  /** What the limiter holds after requests decided in this way. */
  ghost predicate Holds(traces: map<Id, Trace>, queues: Queues, requests: seq<(Id, real)>, accepted: seq<bool>)
    requires |accepted| == |requests|
  {
    forall c: Id ::
      && AcceptedOf(traces, c) == AcceptedBy(requests, accepted, c)
      && Of(queues, c) == Queued(requests, accepted, c)
      && (if c in traces then Latest(requests, c, traces[c].latest) else forall r :: r in requests ==> r.0 != c)
  }

  /** In order, the queue of every client is the last window of its accepted times. */
  ghost predicate QueuesAreWindows(traces: map<Id, Trace>, queues: Queues, requests: seq<(Id, real)>) {
    forall c :: c in traces && Overtaken(requests, c, 0.0) ==>
      Of(queues, c) == NotBefore(traces[c].accepted, traces[c].latest - WINDOW)
  }

  ghost predicate TracesAreLate(traces: map<Id, Trace>, requests: seq<(Id, real)>) {
    forall c, skew :: c in traces && Overtaken(requests, c, skew) ==> LateBy(traces[c], skew)
  }

  lemma OneMoreRequest(requests: seq<(Id, real)>, accepted: seq<bool>, r: (Id, real), ok: bool, c: Id)
    requires |accepted| == |requests|
    ensures AcceptedBy(requests + [r], accepted + [ok], c) ==
      AcceptedBy(requests, accepted, c) + (if r.0 == c && ok then [r.1] else [])
    ensures Queued(requests + [r], accepted + [ok], c) ==
      if r.0 != c then Queued(requests, accepted, c)
      else Pushed(Queued(requests, accepted, c), r.1, ok)
  {
    assert (requests + [r])[..|requests|] == requests && (accepted + [ok])[..|accepted|] == accepted;
  }

  lemma LatestStep(requests: seq<(Id, real)>, r: (Id, real), t: Trace, ok: bool)
    requires Latest(requests, r.0, t.latest) || ((forall q :: q in requests ==> q.0 != r.0) && t.latest == r.1)
    ensures Latest(requests + [r], r.0, Extended(t, r.1, ok).latest)
  {
    assert r in requests + [r];
    if Latest(requests, r.0, t.latest) {
      assert (r.0, t.latest) in requests + [r];
    }
    assert r == (r.0, r.1);
  }

  lemma HoldsStep(traces: map<Id, Trace>, queues: Queues, requests: seq<(Id, real)>, accepted: seq<bool>,
                  r: (Id, real), ok: bool)
    requires |accepted| == |requests| && Holds(traces, queues, requests, accepted)
    ensures Holds(traces[r.0 := Extended(TraceOf(traces, r.0, r.1), r.1, ok)],
                  queues[r.0 := Pushed(Of(queues, r.0), r.1, ok)], requests + [r], accepted + [ok])
  {
    var t := TraceOf(traces, r.0, r.1);
    hide Latest, AcceptedBy, Queued, Pushed;
    LatestStep(requests, r, t, ok);
    forall c: Id
      ensures AcceptedBy(requests + [r], accepted + [ok], c) ==
        AcceptedBy(requests, accepted, c) + (if r.0 == c && ok then [r.1] else [])
      ensures Queued(requests + [r], accepted + [ok], c) ==
        if r.0 != c then Queued(requests, accepted, c) else Pushed(Queued(requests, accepted, c), r.1, ok)
    {
      OneMoreRequest(requests, accepted, r, ok, c);
    }
    forall c: Id | c in traces && c != r.0
      ensures Latest(requests + [r], c, traces[c].latest)
    {
      LatestOther(requests, r, c, traces[c].latest);
    }
  }

  lemma LatestOther(requests: seq<(Id, real)>, r: (Id, real), c: Id, time: real)
    requires c != r.0 && Latest(requests, c, time)
    ensures Latest(requests + [r], c, time)
  {
  }

  /** Where a request stands among its client's earlier ones. */
  lemma NoneIsMuchLater(requests: seq<(Id, real)>, accepted: seq<bool>, r: (Id, real), latest: real, skew: real)
    requires |accepted| == |requests| && Overtaken(requests + [r], r.0, skew)
    requires Latest(requests, r.0, latest) || latest == r.1
    ensures 0.0 <= skew && latest <= r.1 + skew && InOrder(AcceptedBy(requests, accepted, r.0), skew)
    ensures forall k :: 0 <= k < |AcceptedBy(requests, accepted, r.0)| ==>
      AcceptedBy(requests, accepted, r.0)[k] <= r.1 + skew
  {
    assert (requests + [r])[..|requests|] == requests;
    OvertakenBefore(requests + [r], |requests|, r.0, skew);
    AcceptedInOrder(requests, accepted, r.0, skew);
    forall q | q in requests && q.0 == r.0
      ensures q.1 <= r.1 + skew
    {
      var j :| 0 <= j < |requests| && requests[j] == q;
      assert (requests + [r])[j] == q && (requests + [r])[|requests|] == r;
    }
    hide Overtaken, AcceptedBy;
    forall k | 0 <= k < |AcceptedBy(requests, accepted, r.0)|
      ensures AcceptedBy(requests, accepted, r.0)[k] <= r.1 + skew
    {
      AcceptedWereRequested(requests, accepted, r.0, k);
    }
  }

  lemma StepIsJustified(requests: seq<(Id, real)>, accepted: seq<bool>, r: (Id, real), t: Trace, queue: seq<real>,
                        ok: bool, limit: nat, skew: real)
    requires |accepted| == |requests| && Overtaken(requests + [r], r.0, skew)
    requires Windowed(t, queue) && t.accepted == AcceptedBy(requests, accepted, r.0)
    requires Latest(requests, r.0, t.latest) || t.latest == r.1
    requires ok <==> |Recent(queue, r.1)| < limit
    ensures Justified(t.accepted, r.1, ok, limit, skew)
    ensures skew == 0.0 ==>
      Pushed(queue, r.1, ok) == NotBefore(Extended(t, r.1, ok).accepted, Extended(t, r.1, ok).latest - WINDOW)
  {
    hide Recent, Windowed, CountIn, NotBefore, AcceptedBy, Overtaken, Latest, InOrder, Extended, Pushed;
    NoneIsMuchLater(requests, accepted, r, t.latest, skew);
    QueueCounts(t, queue, r.1, skew);
    if skew == 0.0 {
      QueueIsWindow(t, queue, r.1, ok);
    }
  }

  /** A later decision does not touch an earlier one. */
  lemma SettledKept(requests: seq<(Id, real)>, accepted: seq<bool>, ok: bool, n: nat, limit: nat)
    requires n < |accepted| && n < |requests| && Settled(requests, accepted, n, limit)
    ensures Settled(requests, accepted + [ok], n, limit)
  {
    assert (accepted + [ok])[..n] == accepted[..n];
    hide JustifiedForAll, AcceptedBy, Queued;
  }

  lemma SettledStep(requests: seq<(Id, real)>, accepted: seq<bool>, ok: bool, n: nat, limit: nat,
                    queues: Queues, traces: map<Id, Trace>)
    requires n == |accepted| < |requests| && Holds(traces, queues, requests[..n], accepted)
    requires forall m :: 0 <= m < n ==> Settled(requests, accepted, m, limit)
    requires ok <==> |Recent(Of(queues, requests[n].0), requests[n].1)| < limit
    requires JustifiedForAll(requests[..n] + [requests[n]], AcceptedBy(requests[..n], accepted, requests[n].0),
                             requests[n], ok, limit)
    ensures forall m :: 0 <= m <= n ==> Settled(requests, accepted + [ok], m, limit)
  {
    hide Recent, AcceptedBy, Queued, JustifiedForAll, Latest;
    assert Of(queues, requests[n].0) == Queued(requests[..n], accepted, requests[n].0);
    assert (accepted + [ok])[..n] == accepted && requests[..n + 1] == requests[..n] + [requests[n]];
    hide Holds;
    assert Settled(requests, accepted + [ok], n, limit);
    hide Settled;
    forall m | 0 <= m < n
      ensures Settled(requests, accepted + [ok], m, limit)
    {
      SettledKept(requests, accepted, ok, m, limit);
    }
  }

  lemma LateStep(requests: seq<(Id, real)>, r: (Id, real), t: Trace, skew: real, ok: bool)
    requires Overtaken(requests + [r], r.0, skew)
    requires Latest(requests, r.0, t.latest) || t.latest == r.1
    requires LateBy(t, skew)
    ensures LateBy(Extended(t, r.1, ok), skew)
  {
    if Latest(requests, r.0, t.latest) {
      var j :| 0 <= j < |requests| && requests[j] == (r.0, t.latest);
      assert (requests + [r])[j] == requests[j] && (requests + [r])[|requests|] == r;
    }
  }

  lemma LateTracesStep(traces: map<Id, Trace>, queues: Queues, requests: seq<(Id, real)>, accepted: seq<bool>,
                       r: (Id, real), ok: bool)
    requires |accepted| == |requests| && Holds(traces, queues, requests, accepted) && TracesAreLate(traces, requests)
    ensures TracesAreLate(traces[r.0 := Extended(TraceOf(traces, r.0, r.1), r.1, ok)], requests + [r])
  {
    hide AcceptedBy, Queued;
    var t := TraceOf(traces, r.0, r.1);
    assert (requests + [r])[..|requests|] == requests;
    assert r.0 !in traces ==> forall skew :: LateBy(t, skew);
    hide Overtaken, LateBy, Latest, Extended;
    forall c, skew | (c in traces || c == r.0) && Overtaken(requests + [r], c, skew)
      ensures c in traces ==> LateBy(traces[c], skew)
      ensures c == r.0 ==> LateBy(Extended(t, r.1, ok), skew)
    {
      OvertakenBefore(requests + [r], |requests|, c, skew);
      if c == r.0 {
        LateStep(requests, r, t, skew, ok);
      }
    }
  }

  /** What is known of the trace of the next request's client. */
  lemma HeldTrace(traces: map<Id, Trace>, queues: Queues, requests: seq<(Id, real)>, accepted: seq<bool>, r: (Id, real))
    requires |accepted| == |requests| && Holds(traces, queues, requests, accepted)
    ensures var t := TraceOf(traces, r.0, r.1);
      t.accepted == AcceptedBy(requests, accepted, r.0) && (Latest(requests, r.0, t.latest) || t.latest == r.1)
  {
    hide AcceptedBy, Queued, Latest;
    assert AcceptedOf(traces, r.0) == AcceptedBy(requests, accepted, r.0);
  }

  lemma OvertakenInit(requests: seq<(Id, real)>, r: (Id, real), client: Id, skew: real)
    requires Overtaken(requests + [r], client, skew)
    ensures Overtaken(requests, client, skew)
  {
    assert (requests + [r])[..|requests|] == requests;
    OvertakenBefore(requests + [r], |requests|, client, skew);
  }

  lemma JustifiedStep(traces: map<Id, Trace>, queues: Queues, requests: seq<(Id, real)>, accepted: seq<bool>,
                      r: (Id, real), ok: bool, limit: nat)
    requires |accepted| == |requests| && Holds(traces, queues, requests, accepted)
    requires Windowed(TraceOf(traces, r.0, r.1), Of(queues, r.0))
    requires ok <==> |Recent(Of(queues, r.0), r.1)| < limit
    ensures JustifiedForAll(requests + [r], AcceptedBy(requests, accepted, r.0), r, ok, limit)
  {
    hide Recent, Windowed, Overtaken, Latest, AcceptedBy, Queued, Justified, NotBefore, Pushed, Extended, Holds;
    var t, queue := TraceOf(traces, r.0, r.1), Of(queues, r.0);
    HeldTrace(traces, queues, requests, accepted, r);
    forall skew | Overtaken(requests + [r], r.0, skew)
      ensures Justified(t.accepted, r.1, ok, limit, skew)
    {
      StepIsJustified(requests, accepted, r, t, queue, ok, limit, skew);
    }
  }

  lemma WindowsStep(traces: map<Id, Trace>, queues: Queues, requests: seq<(Id, real)>, accepted: seq<bool>,
                    r: (Id, real), ok: bool, limit: nat)
    requires |accepted| == |requests| && Holds(traces, queues, requests, accepted)
    requires QueuesAreWindows(traces, queues, requests) && Windowed(TraceOf(traces, r.0, r.1), Of(queues, r.0))
    requires ok <==> |Recent(Of(queues, r.0), r.1)| < limit
    ensures QueuesAreWindows(traces[r.0 := Extended(TraceOf(traces, r.0, r.1), r.1, ok)],
                             queues[r.0 := Pushed(Of(queues, r.0), r.1, ok)], requests + [r])
  {
    hide Recent, Windowed, Overtaken, Latest, AcceptedBy, Queued, Justified, NotBefore, Pushed, Extended, Holds;
    var t, queue := TraceOf(traces, r.0, r.1), Of(queues, r.0);
    HeldTrace(traces, queues, requests, accepted, r);
    if Overtaken(requests + [r], r.0, 0.0) {
      StepIsJustified(requests, accepted, r, t, queue, ok, limit, 0.0);
    }
    forall c | c in traces && c != r.0 && Overtaken(requests + [r], c, 0.0)
      ensures Overtaken(requests, c, 0.0)
    {
      OvertakenInit(requests, r, c, 0.0);
    }
  }

  /** One request of a sequence. */
  method ServeNext(limiter: RateLimiter, r: (Id, real), ghost requests: seq<(Id, real)>, ghost accepted: seq<bool>)
    returns (ok: bool)
    requires limiter.Valid() && |accepted| == |requests|
    requires Holds(limiter.traces, limiter.requestTimes, requests, accepted)
    requires QueuesAreWindows(limiter.traces, limiter.requestTimes, requests) && TracesAreLate(limiter.traces, requests)
    modifies limiter
    ensures limiter.Valid() && Holds(limiter.traces, limiter.requestTimes, requests + [r], accepted + [ok])
    ensures QueuesAreWindows(limiter.traces, limiter.requestTimes, requests + [r])
    ensures TracesAreLate(limiter.traces, requests + [r])
    ensures ok <==> |Recent(Of(old(limiter.requestTimes), r.0), r.1)| < limiter.limit
    ensures JustifiedForAll(requests + [r], AcceptedBy(requests, accepted, r.0), r, ok, limiter.limit)
  {
    ghost var traces, queues := limiter.traces, limiter.requestTimes;
    NothingIsWindowed(r.1, limiter.limit);
    hide Recent, Spaced, Windowed, Overtaken, Latest, Holds, QueuesAreWindows, TracesAreLate, Extended, Pushed;
    hide AcceptedBy, Queued, NotBefore, JustifiedForAll;
    assert Windowed(TraceOf(traces, r.0, r.1), Of(queues, r.0));
    ok := limiter.RateLimit(r.0, r.1);
    HoldsStep(traces, queues, requests, accepted, r, ok);
    LateTracesStep(traces, queues, requests, accepted, r, ok);
    WindowsStep(traces, queues, requests, accepted, r, ok, limiter.limit);
    JustifiedStep(traces, queues, requests, accepted, r, ok, limiter.limit);
  }

  lemma NothingServed(limiter: RateLimiter)
    requires limiter.Valid() && limiter.traces == map[]
    ensures limiter.requestTimes == map[]
    ensures Holds(map[], map[], [], []) && QueuesAreWindows(map[], map[], []) && TracesAreLate(map[], [])
  {
  }

  /** For a client whose requests so far came in order, the decision is that of its window. */
  ghost predicate DecidedInOrder(requests: seq<(Id, real)>, accepted: seq<bool>, n: nat, limit: nat)
    requires n < |requests| && n < |accepted|
  {
    Overtaken(requests[..n + 1], requests[n].0, 0.0) ==>
      (accepted[n] <==> CountIn(HistoryAt(requests, accepted, n), requests[n].1 - WINDOW, requests[n].1) < limit)
  }

  lemma ServedInOrder(requests: seq<(Id, real)>, accepted: seq<bool>, limit: nat)
    requires |accepted| == |requests| && forall n :: 0 <= n < |requests| ==> Settled(requests, accepted, n, limit)
    ensures forall n :: 0 <= n < |requests| ==> DecidedInOrder(requests, accepted, n, limit)
  {
    hide AcceptedBy, Queued, CountIn, Recent, Overtaken;
    forall n | 0 <= n < |requests| && Overtaken(requests[..n + 1], requests[n].0, 0.0)
      ensures DecidedInOrder(requests, accepted, n, limit)
    {
      assert Settled(requests, accepted, n, limit);
      assert Justified(HistoryAt(requests, accepted, n), requests[n].1, accepted[n], limit, 0.0);
    }
  }

  lemma ValidIsSpaced(limiter: RateLimiter)
    requires limiter.Valid()
    ensures forall c :: c in limiter.traces ==> Spaced(limiter.traces[c], limiter.limit)
  {
  }

  lemma ServedWithinLimits(traces: map<Id, Trace>, queues: Queues, requests: seq<(Id, real)>, accepted: seq<bool>, limit: nat)
    requires |accepted| == |requests| && Holds(traces, queues, requests, accepted) && TracesAreLate(traces, requests)
    requires forall c :: c in traces ==> Spaced(traces[c], limit)
    ensures forall client, skew, from, to :: Overtaken(requests, client, skew) && to - from <= WINDOW - skew ==>
      CountIn(AcceptedBy(requests, accepted, client), from, to) <= limit
  {
    hide AcceptedBy, Overtaken, Holds, TracesAreLate, CountIn, Spaced;
    forall client, skew, from, to | Overtaken(requests, client, skew) && to - from <= WINDOW - skew
      ensures CountIn(AcceptedBy(requests, accepted, client), from, to) <= limit
    {
      ServedWithinLimit(traces, queues, requests, accepted, limit, client, skew, from, to);
    }
  }

  lemma ServedWithinLimit(traces: map<Id, Trace>, queues: Queues, requests: seq<(Id, real)>, accepted: seq<bool>,
                          limit: nat, client: Id, skew: real, from: real, to: real)
    requires |accepted| == |requests| && Holds(traces, queues, requests, accepted) && TracesAreLate(traces, requests)
    requires client in traces ==> Spaced(traces[client], limit)
    requires Overtaken(requests, client, skew) && to - from <= WINDOW - skew
    ensures CountIn(AcceptedBy(requests, accepted, client), from, to) <= limit
  {
    hide AcceptedBy, Queued, Spaced, LateBy, Overtaken, Latest;
    assert AcceptedOf(traces, client) == AcceptedBy(requests, accepted, client);
    if client in traces {
      WindowHoldsAtMostLimit(traces[client], limit, skew, from, to);
    }
  }

  /** The server over any requests of any clients at any times. Every decision is that of the
      queue, every client's queue and accepted times are exactly those of its own requests, and for
      a client whose requests overtake each other by at most some delay
      - a request is accepted only with fewer than the limit in the window shortened by the delay, and
        refused only with the limit in the window lengthened by it;
      - no interval shorter than the window by the delay holds more accepted requests than the limit.
      Without overtaking a request is accepted exactly when fewer than the limit were accepted in its
      window, and the queue is that window. */
  method Serve(limiter: RateLimiter, requests: seq<(Id, real)>) returns (accepted: seq<bool>)
    requires limiter.Valid() && limiter.traces == map[]
    modifies limiter
    ensures limiter.Valid() && |accepted| == |requests|
    ensures Holds(limiter.traces, limiter.requestTimes, requests, accepted)
    ensures QueuesAreWindows(limiter.traces, limiter.requestTimes, requests)
    ensures forall n :: 0 <= n < |requests| ==> Settled(requests, accepted, n, limiter.limit)
    ensures forall n :: 0 <= n < |requests| ==> DecidedInOrder(requests, accepted, n, limiter.limit)
    ensures forall client, skew, from, to :: Overtaken(requests, client, skew) && to - from <= WINDOW - skew ==>
      CountIn(AcceptedBy(requests, accepted, client), from, to) <= limiter.limit
  {
    hide *;
    NothingServed(limiter);
    assert requests[..0] == [];
    accepted := [];
    for n := 0 to |requests|
      invariant limiter.Valid() && |accepted| == n
      invariant Holds(limiter.traces, limiter.requestTimes, requests[..n], accepted)
      invariant forall m :: 0 <= m < n ==> Settled(requests, accepted, m, limiter.limit)
      invariant QueuesAreWindows(limiter.traces, limiter.requestTimes, requests[..n])
      invariant TracesAreLate(limiter.traces, requests[..n])
    {
      ghost var traces, queues, earlier := limiter.traces, limiter.requestTimes, accepted;
      var ok := ServeNext(limiter, requests[n], requests[..n], accepted);
      accepted := accepted + [ok];
      assert requests[..n + 1] == requests[..n] + [requests[n]];
      SettledStep(requests, earlier, ok, n, limiter.limit, queues, traces);
    }
    assert requests[..|requests|] == requests;
    ServedInOrder(requests, accepted, limiter.limit);
    ValidIsSpaced(limiter);
    ServedWithinLimits(limiter.traces, limiter.requestTimes, requests, accepted, limiter.limit);
  }

  // ----------------------------------------------------------- overtaking

  /** With overtaking the full window can hold more than the limit. */
  method OvertakenExceedsLimit() returns (limiter: RateLimiter)
    ensures fresh(limiter) && limiter.limit == 2 && 1 in limiter.traces
    ensures CountIn(limiter.traces[1].accepted, 0.0, WINDOW) == 3
  {
    hide Recent, Spaced, Windowed, CountIn;
    RecentValues();
    CountOfFour();
    limiter := new RateLimiter(2);
    var first := limiter.RateLimit(1, 0.0);
    assert first && limiter.requestTimes[1] == [0.0] && limiter.traces[1].accepted == [0.0];
    var second := limiter.RateLimit(1, 1.0);
    assert second && limiter.requestTimes[1] == [0.0, 1.0] && limiter.traces[1].accepted == [0.0, 1.0];
    var third := limiter.RateLimit(1, 62.0);
    assert third && limiter.requestTimes[1] == [62.0] && limiter.traces[1].accepted == [0.0, 1.0, 62.0];
    var late := limiter.RateLimit(1, 60.0);
    assert late && limiter.traces[1].accepted == [0.0, 1.0, 62.0, 60.0];
  }

  lemma RecentValues()
    ensures Recent([], 0.0) == [] && Recent([0.0], 1.0) == [0.0] && Recent([62.0], 60.0) == [62.0]
    ensures Recent([0.0, 1.0], 62.0) == []
  {
    assert [0.0, 1.0][1..] == [1.0] && [1.0][1..] == [];
  }

  lemma CountOfFour()
    ensures CountIn([0.0, 1.0, 62.0, 60.0], 0.0, WINDOW) == 3
  {
    assert [0.0, 1.0, 62.0, 60.0][..3] == [0.0, 1.0, 62.0];
    assert [0.0, 1.0, 62.0][..2] == [0.0, 1.0] && [0.0, 1.0][..1] == [0.0] && [0.0][..0] == [];
  }

  /** With overtaking a request can be refused although its window holds fewer than the limit: an
      old time stays queued behind a newer one. */
  method OvertakenIsRefused() returns (limiter: RateLimiter, ok: bool)
    ensures fresh(limiter) && limiter.limit == 2 && 1 in limiter.traces && limiter.traces[1].latest == 155.0
    ensures !ok && limiter.traces[1].accepted == [100.0, 30.0]
    ensures CountIn(limiter.traces[1].accepted, 155.0 - WINDOW, 155.0) == 1
  {
    hide Recent, Spaced, Windowed, CountIn;
    RefusedValues();
    limiter := new RateLimiter(2);
    var first := limiter.RateLimit(1, 100.0);
    assert first && limiter.requestTimes[1] == [100.0] && limiter.traces[1].accepted == [100.0];
    var second := limiter.RateLimit(1, 30.0);
    assert second && limiter.requestTimes[1] == [100.0, 30.0] && limiter.traces[1].accepted == [100.0, 30.0];
    ok := limiter.RateLimit(1, 155.0);
  }

  lemma RefusedValues()
    ensures Recent([], 100.0) == [] && Recent([100.0], 30.0) == [100.0]
    ensures Recent([100.0, 30.0], 155.0) == [100.0, 30.0]
    ensures CountIn([100.0, 30.0], 155.0 - WINDOW, 155.0) == 1
  {
    assert [100.0, 30.0][..1] == [100.0] && [100.0][..0] == [];
    assert CountIn([100.0], 155.0 - WINDOW, 155.0) == 1;
  }
}

/** The sliding-window limiter of login attempts per peer (cloudhelm/routers/auth.py). */
module LoginLimiter {
  const WINDOW := 300.0
  const LIMIT := 20

  type Attempts = map<string, seq<real>>

  datatype Call = Call(peer: string, now: real)

  function Queue(attempts: Attempts, peer: string): seq<real> {
    if peer in attempts then attempts[peer] else []
  }

  /** What is left of a queue once the leading entries outside the window are popped. */
  function Expire(queue: seq<real>, now: real): seq<real> {
    if queue != [] && now - queue[0] > WINDOW then Expire(queue[1..], now) else queue
  }

  predicate Allows(attempts: Attempts, call: Call) {
    |Expire(Queue(attempts, call.peer), call.now)| < LIMIT
  }

  function Served(attempts: Attempts, call: Call): Attempts {
    var kept := Expire(Queue(attempts, call.peer), call.now);
    attempts[call.peer := if |kept| < LIMIT then kept + [call.now] else kept]
  }

  class Limiter {
    var attempts: Attempts

    constructor ()
      ensures attempts == map[]
    {
      attempts := map[];
    }

    method RateLimit(peer: string, now: real) returns (allowed: bool)
      modifies this
      ensures allowed == Allows(old(attempts), Call(peer, now))
      ensures attempts == Served(old(attempts), Call(peer, now))
    {
      var queue := Queue(attempts, peer);
      while queue != [] && now - queue[0] > WINDOW
        invariant Expire(queue, now) == Expire(Queue(old(attempts), peer), now)
        decreases |queue|
      {
        queue := queue[1..];
      }
      if |queue| >= LIMIT {
        attempts := attempts[peer := queue];
        return false;
      }
      attempts := attempts[peer := queue + [now]];
      return true;
    }
  }

  // ---------------------------------------------------------------- whole runs

  function Run(calls: seq<Call>): Attempts {
    if calls == [] then map[] else Served(Run(calls[..|calls| - 1]), calls[|calls| - 1])
  }

  /** The accepted times of one peer over a run, oldest first. */
  function Accepted(calls: seq<Call>, peer: string): seq<real> {
    if calls == [] then []
    else
      var before, call := calls[..|calls| - 1], calls[|calls| - 1];
      if call.peer == peer && Allows(Run(before), call) then Accepted(before, peer) + [call.now]
      else Accepted(before, peer)
  }

  /** How many of these times lie within the last window. */
  function Recent(times: seq<real>, now: real): nat {
    if times == [] then 0
    else Recent(times[..|times| - 1], now) + if now - times[|times| - 1] <= WINDOW then 1 else 0
  }

  ghost predicate MonotoneClock(calls: seq<Call>) {
    forall i, j :: 0 <= i < j < |calls| ==> calls[i].now <= calls[j].now
  }

  ghost predicate Sorted(times: seq<real>) {
    forall i, j :: 0 <= i < j < |times| ==> times[i] <= times[j]
  }

  lemma {:induction false} ExpireIsSuffix(queue: seq<real>, now: real)
    ensures var kept := Expire(queue, now); var k := |queue| - |kept|;
      && 0 <= k && kept == queue[k..]
      && (forall i :: 0 <= i < k ==> now - queue[i] > WINDOW)
      && (kept != [] ==> now - kept[0] <= WINDOW)
  {
    if queue != [] && now - queue[0] > WINDOW {
      var rest := queue[1..];
      ExpireIsSuffix(rest, now);
      var k := |rest| - |Expire(rest, now)|;
      assert queue[k + 1..] == rest[k..];
      assert forall i :: 0 < i < |queue| ==> queue[i] == rest[i - 1];
    } else {
      assert queue[0..] == queue;
    }
  }

  lemma {:induction false} RecentOfSplit(times: seq<real>, now: real, k: nat)
    requires k <= |times|
    requires forall i :: 0 <= i < k ==> now - times[i] > WINDOW
    requires forall i :: k <= i < |times| ==> now - times[i] <= WINDOW
    ensures Recent(times, now) == |times| - k
  {
    if times != [] {
      RecentOfSplit(times[..|times| - 1], now, if k == |times| then k - 1 else k);
    }
  }

  /** The queue is a suffix of the accepted times; what it dropped is out of the window
      for good. */
  ghost predicate Tracks(history: seq<real>, queue: seq<real>, clock: real) {
    var k := |history| - |queue|;
    && 0 <= k && queue == history[k..]
    && Sorted(history)
    && (forall i :: 0 <= i < k ==> clock - history[i] > WINDOW)
    && (forall i :: 0 <= i < |history| ==> history[i] <= clock)
  }

  lemma ExpiryTracks(history: seq<real>, queue: seq<real>, clock: real, now: real)
    requires Tracks(history, queue, clock) && clock <= now
    ensures Tracks(history, Expire(queue, now), now)
    ensures Recent(history, now) == |Expire(queue, now)|
  {
    ExpireIsSuffix(queue, now);
    var kept := Expire(queue, now);
    var k := |history| - |kept|;
    assert kept == history[k..];
    forall i | 0 <= i < k ensures now - history[i] > WINDOW {
      if i >= |history| - |queue| { assert history[i] == queue[i - (|history| - |queue|)]; }
    }
    RecentOfSplit(history, now, k);
  }

  /** One call of this peer, seen on its accepted times and its queue alone. */
  function Admit(history: seq<real>, queue: seq<real>, now: real): (seq<real>, seq<real>) {
    var kept := Expire(queue, now);
    if |kept| < LIMIT then (history + [now], kept + [now]) else (history, kept)
  }

  lemma LastCall(calls: seq<Call>, peer: string)
    requires calls != []
    ensures var before, call := calls[..|calls| - 1], calls[|calls| - 1];
      var history, queue := Accepted(before, peer), Queue(Run(before), peer);
      (Accepted(calls, peer), Queue(Run(calls), peer)) ==
        if call.peer == peer then Admit(history, queue, call.now) else (history, queue)
  {}

  lemma AdmitTracks(history: seq<real>, queue: seq<real>, clock: real, now: real)
    requires Tracks(history, queue, clock) && clock <= now
    ensures var next := Admit(history, queue, now);
      Tracks(next.0, next.1, now) && (|queue| <= LIMIT ==> |next.1| <= LIMIT)
  {
    ExpiryTracks(history, queue, clock, now);
    AppendTracks(history, Expire(queue, now), now);
    ExpireShrinks(queue, now);
  }

  lemma ExpireShrinks(queue: seq<real>, now: real)
    ensures |Expire(queue, now)| <= |queue|
  {
    ExpireIsSuffix(queue, now);
  }

  lemma AppendTracks(history: seq<real>, queue: seq<real>, now: real)
    requires Tracks(history, queue, now)
    ensures Tracks(history + [now], queue + [now], now)
  {
    var k := |history| - |queue|;
    assert (history + [now])[k..] == history[k..] + [now];
  }

  lemma LaterTracks(history: seq<real>, queue: seq<real>, clock: real, later: real)
    requires Tracks(history, queue, clock) && clock <= later
    ensures Tracks(history, queue, later)
  {}

  lemma {:induction false} QueueTracksHistory(calls: seq<Call>, peer: string, clock: real)
    requires MonotoneClock(calls)
    requires calls != [] ==> calls[|calls| - 1].now <= clock
    ensures Tracks(Accepted(calls, peer), Queue(Run(calls), peer), clock)
    ensures |Queue(Run(calls), peer)| <= LIMIT
  {
    if calls == [] {
      assert Queue(Run(calls), peer) == [];
    } else {
      var before, call := calls[..|calls| - 1], calls[|calls| - 1];
      QueueTracksHistory(before, peer, call.now);
      LastCall(calls, peer);
      AdmitTracks(Accepted(before, peer), Queue(Run(before), peer), call.now, call.now);
      LaterTracks(Accepted(calls, peer), Queue(Run(calls), peer), call.now, clock);
    }
  }

  /** A call is refused exactly when twenty accepted attempts of the same peer lie within
      the last 300 seconds. */
  lemma RefusedExactlyWhenWindowFull(calls: seq<Call>, call: Call)
    requires MonotoneClock(calls + [call])
    ensures Allows(Run(calls), call) <==> Recent(Accepted(calls, call.peer), call.now) < LIMIT
  {
    ClockOfFront(calls, call);
    hide Run, Accepted, Recent, Expire;
    QueueTracksHistory(calls, call.peer, call.now);
    ExpiryTracks(Accepted(calls, call.peer), Queue(Run(calls), call.peer), call.now, call.now);
  }

  lemma ClockOfFront(calls: seq<Call>, call: Call)
    requires MonotoneClock(calls + [call])
    ensures MonotoneClock(calls) && (calls != [] ==> calls[|calls| - 1].now <= call.now)
  {
    var all := calls + [call];
    assert forall i :: 0 <= i < |calls| ==> calls[i] == all[i];
    assert calls != [] ==> all[|calls| - 1].now <= all[|calls|].now;
  }

  /** The accepted attempts number i and i + 20 of a peer are always more than 300 s apart. */
  lemma {:induction false} AcceptedAttemptsAreSpaced(calls: seq<Call>, peer: string, i: nat)
    requires MonotoneClock(calls) && i + LIMIT < |Accepted(calls, peer)|
    ensures Accepted(calls, peer)[i + LIMIT] - Accepted(calls, peer)[i] > WINDOW
  {
    var before, call := calls[..|calls| - 1], calls[|calls| - 1];
    var history, queue := Accepted(before, peer), Queue(Run(before), peer);
    if i + LIMIT < |history| {
      AcceptedAttemptsAreSpaced(before, peer, i);
    } else {
      QueueTracksHistory(before, peer, call.now);
      ExpiryTracks(history, queue, call.now, call.now);
    }
  }

  /** Every queue a run leaves is a suffix of the peer's accepted times, at most twenty long. */
  lemma QueueIsBoundedSuffix(calls: seq<Call>, peer: string)
    requires MonotoneClock(calls)
    ensures var history, queue := Accepted(calls, peer), Queue(Run(calls), peer);
      |queue| <= LIMIT && |queue| <= |history| && queue == history[|history| - |queue|..]
  {
    QueueTracksHistory(calls, peer, if calls == [] then 0.0 else calls[|calls| - 1].now);
  }
}

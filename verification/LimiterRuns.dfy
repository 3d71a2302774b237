/**
 What the limiter of src/rate_limit.rs guarantees over whole runs: conservation of
 tokens, the sliding-window bound, that reconnecting never pays, and that peers
 cannot affect each other.
 */
module LimiterRuns {
  import opened Common
  import opened RateLimit

  datatype Op =
    | Connect(peer: PublicKey)
    | Disconnect(peer: PublicKey)
    | Query(peer: PublicKey, checkAt: nat, updateAt: nat)

  function Apply(l: Limiter, op: Op): Limiter {
    match op
    case Connect(p) => Connected(l, p)
    case Disconnect(p) => Disconnected(l, p)
    case Query(p, checkAt, updateAt) => AfterHit(Refreshed(l, checkAt, updateAt), p)
  }

  /** Whether `op` is a query of `p` that is granted in state `l`. */
  predicate Grants(l: Limiter, op: Op, p: PublicKey) {
    op.Query? && op.peer == p && MayHit(Refreshed(l, op.checkAt, op.updateAt), p)
  }

  /** The last clock reading a query makes. */
  function Stamp(l: Limiter, op: Op): nat
    requires op.Query?
  {
    if NeedsUpdate(l, op.checkAt) then op.updateAt else op.checkAt
  }

  function Run(l: Limiter, ops: seq<Op>): Limiter {
    if ops == [] then l else Apply(Run(l, ops[..|ops| - 1]), ops[|ops| - 1])
  }

  /** The latest clock reading of a run; a limiter is created with a reading of its own. */
  function Clock(l: Limiter, ops: seq<Op>): nat {
    if ops == [] then l.lastUpdate else
      var before, op := ops[..|ops| - 1], ops[|ops| - 1];
      if op.Query? then Stamp(Run(l, before), op) else Clock(l, before)
  }

  /** The clock never goes backwards from one reading actually made to the next. */
  predicate Ordered(l: Limiter, ops: seq<Op>) {
    ops == [] ||
    var before, op := ops[..|ops| - 1], ops[|ops| - 1];
    && Ordered(l, before)
    && (op.Query? ==>
          && Clock(l, before) <= op.checkAt
          && (NeedsUpdate(Run(l, before), op.checkAt) ==> op.checkAt <= op.updateAt))
  }

  /** Queries of `p` granted at a clock reading in `[from, to)`. */
  function GrantsIn(l: Limiter, ops: seq<Op>, p: PublicKey, from: int, to: int): nat {
    if ops == [] then 0 else
      var before, op := ops[..|ops| - 1], ops[|ops| - 1];
      GrantsIn(l, before, p, from, to) +
      if Grants(Run(l, before), op, p) && from <= Stamp(Run(l, before), op) < to then 1 else 0
  }

  /** Queries of `p` granted in the whole run. */
  function TotalGrants(l: Limiter, ops: seq<Op>, p: PublicKey): nat {
    if ops == [] then 0 else
      var before, op := ops[..|ops| - 1], ops[|ops| - 1];
      TotalGrants(l, before, p) + if Grants(Run(l, before), op, p) then 1 else 0
  }

  /** Queries of `p` granted since the current period began. */
  function PeriodGrants(l: Limiter, ops: seq<Op>, p: PublicKey): nat {
    if ops == [] then 0 else
      var before, op := ops[..|ops| - 1], ops[|ops| - 1];
      (if op.Query? && NeedsUpdate(Run(l, before), op.checkAt) then 0
       else PeriodGrants(l, before, p)) +
      if Grants(Run(l, before), op, p) then 1 else 0
  }

  /** The answers given to the queries of `p`, in order. */
  function Answers(l: Limiter, ops: seq<Op>, p: PublicKey): seq<bool> {
    if ops == [] then [] else
      var before, op := ops[..|ops| - 1], ops[|ops| - 1];
      Answers(l, before, p) +
      if op.Query? && op.peer == p then [Grants(Run(l, before), op, p)] else []
  }

  /** Every tracked peer holds a full allocation, as in a limiter just created. */
  predicate FullBuckets(l: Limiter) {
    forall p :: p in l.peers ==> l.peers[p].remaining == l.callCount
  }

  /** What `p` could still be granted in this period, were it to connect now. */
  function Tokens(l: Limiter, p: PublicKey): nat {
    if p in l.peers then l.peers[p].remaining else l.callCount
  }

  lemma NewIsFull(peers: seq<PublicKey>, callCount: u8, callFrequency: nat, now: nat)
    ensures FullBuckets(New(peers, callCount, callFrequency, now))
    ensures AllOnline(New(peers, callCount, callFrequency, now))
  {
  }

  lemma RunOne(l: Limiter, op: Op)
    ensures Run(l, [op]) == Apply(l, op)
  {
  }

  lemma {:induction false} RunAppend(l: Limiter, ops: seq<Op>, more: seq<Op>)
    ensures Run(l, ops + more) == Run(Run(l, ops), more)
  {
    if more == [] {
      assert ops + more == ops;
    } else {
      RunAppend(l, ops, more[..|more| - 1]);
      assert (ops + more)[..|ops + more| - 1] == ops + more[..|more| - 1];
    }
  }

  lemma {:induction false} GrantsInAppend(l: Limiter, ops: seq<Op>, more: seq<Op>, p: PublicKey, from: int, to: int)
    ensures GrantsIn(l, ops + more, p, from, to) ==
            GrantsIn(l, ops, p, from, to) + GrantsIn(Run(l, ops), more, p, from, to)
  {
    if more == [] {
      assert ops + more == ops;
    } else {
      var before := more[..|more| - 1];
      GrantsInAppend(l, ops, before, p, from, to);
      RunAppend(l, ops, before);
      assert (ops + more)[..|ops + more| - 1] == ops + before;
    }
  }

  // ---- Conservation ----

  lemma {:induction false} SameParameters(l: Limiter, ops: seq<Op>)
    ensures Run(l, ops).callCount == l.callCount
    ensures Run(l, ops).callFrequency == l.callFrequency
  {
    if ops == [] {
    } else {
      SameParameters(l, ops[..|ops| - 1]);
    }
  }

  /** How one operation moves a peer's tokens: connects and disconnects, of anybody, never do. */
  lemma TokensStep(l: Limiter, op: Op, p: PublicKey)
    ensures Tokens(Apply(l, op), p) + (if Grants(l, op, p) then 1 else 0) ==
            if op.Query? && NeedsUpdate(l, op.checkAt) then l.callCount as nat else Tokens(l, p)
  {
  }

  /**
   What a peer was granted this period and what it has left always make up exactly one
   allocation, however often it (dis)connected and whether or not it is still tracked.
   */
  lemma {:induction false} TokensConserved(l: Limiter, ops: seq<Op>, p: PublicKey)
    requires FullBuckets(l)
    ensures PeriodGrants(l, ops, p) + Tokens(Run(l, ops), p) == l.callCount
  {
    SameParameters(l, ops);
    if ops == [] {
    } else {
      var before := ops[..|ops| - 1];
      SameParameters(l, before);
      TokensConserved(l, before, p);
      TokensStep(Run(l, before), ops[|ops| - 1], p);
    }
  }

  // ---- Sliding window ----

  lemma {:induction false} PeriodBeganInThePast(l: Limiter, ops: seq<Op>)
    requires Ordered(l, ops)
    ensures Run(l, ops).lastUpdate <= Clock(l, ops)
  {
    if ops == [] {
    } else {
      PeriodBeganInThePast(l, ops[..|ops| - 1]);
    }
  }

  /**
   Where a run stands with respect to the window `[from, from + width)`, given the number
   of grants in it so far: not reached yet; in the `j`-th period that meets it; or past it.
   */
  predicate InWindow(now: Limiter, p: PublicKey, from: int, k: nat, j: nat, grants: nat) {
    var f := now.callFrequency;
    || (j == 0 && grants == 0 && now.lastUpdate + f <= from)
    || (1 <= j <= k + 1 && from + j * f < now.lastUpdate + 2 * f &&
        grants + Tokens(now, p) <= j * now.callCount)
    || (from + k * f <= now.lastUpdate && grants <= (k + 1) * now.callCount)
  }

  lemma NextPeriod(now: Limiter, next: Limiter, p: PublicKey, from: int, k: nat, j: nat, grants: nat)
    returns (j': nat)
    requires InWindow(now, p, from, k, j, grants)
    requires next.callCount == now.callCount && next.callFrequency == now.callFrequency
    requires now.lastUpdate + now.callFrequency <= next.lastUpdate
    requires Tokens(next, p) <= next.callCount
    ensures InWindow(next, p, from, k, j', grants)
  {
    var f, c := now.callFrequency, now.callCount;
    assert (j + 1) * f == j * f + f && (j + 1) * c == j * c + c;
    assert (k + 1) * f == k * f + f && (k + 1) * c == k * c + c >= 0 by { NonNegative(k + 1, c); }
    if j == 0 && grants == 0 && now.lastUpdate + f <= from {
      j' := if next.lastUpdate + f <= from then 0 else 1;
    } else if 1 <= j <= k && from + j * f < now.lastUpdate + 2 * f && grants + Tokens(now, p) <= j * c {
      j' := j + 1;
    } else {
      j' := j;
    }
  }

  lemma NonNegative(a: nat, b: nat)
    ensures 0 <= a * b
  {
  }

  lemma {:induction false} WindowInvariant(l: Limiter, ops: seq<Op>, p: PublicKey, from: int, k: nat)
    returns (j: nat)
    requires FullBuckets(l) && Ordered(l, ops)
    ensures InWindow(Run(l, ops), p, from, k, j, GrantsIn(l, ops, p, from, from + k * l.callFrequency))
  {
    var f := l.callFrequency;
    if ops == [] {
      j := if l.lastUpdate + f <= from then 0 else 1;
    } else {
      var before, op := ops[..|ops| - 1], ops[|ops| - 1];
      j := WindowInvariant(l, before, p, from, k);
      SameParameters(l, before);
      PeriodBeganInThePast(l, before);
      j := WindowStep(Run(l, before), op, p, from, k, j,
                      GrantsIn(l, before, p, from, from + k * f));
    }
  }

  lemma WindowStep(now: Limiter, op: Op, p: PublicKey, from: int, k: nat, j: nat, grants: nat)
    returns (j': nat)
    requires InWindow(now, p, from, k, j, grants)
    requires op.Query? ==> now.lastUpdate <= op.checkAt &&
                           (NeedsUpdate(now, op.checkAt) ==> op.checkAt <= op.updateAt)
    ensures InWindow(Apply(now, op), p, from, k, j',
              grants + if Grants(now, op, p) && from <= Stamp(now, op) < from + k * now.callFrequency
                       then 1 else 0)
  {
    TokensStep(now, op, p);
    j' := j;
    if op.Query? && NeedsUpdate(now, op.checkAt) {
      j' := NextPeriod(now, Updated(now, op.updateAt), p, from, k, j, grants);
    }
  }

  /**
   In any half-open window of `k` periods a peer is granted at most `k + 1` allocations,
   over every run of connects, disconnects and queries with a clock that does not go back.
   */
  lemma SlidingWindowBound(l: Limiter, ops: seq<Op>, p: PublicKey, from: int, k: nat)
    requires FullBuckets(l) && Ordered(l, ops)
    ensures GrantsIn(l, ops, p, from, from + k * l.callFrequency) <= (k + 1) * l.callCount
  {
    var j := WindowInvariant(l, ops, p, from, k);
    SameParameters(l, ops);
    if 1 <= j <= k + 1 {
      assert (k + 1) * l.callCount == j * l.callCount + (k + 1 - j) * l.callCount;
      NonNegative(k + 1 - j, l.callCount);
    }
    NonNegative(k + 1, l.callCount);
  }

  /** `n` queries of `p` at one instant. */
  function Round(p: PublicKey, at: nat, n: nat): seq<Op> {
    if n == 0 then [] else Round(p, at, n - 1) + [Query(p, at, at)]
  }

  /** `k * n`, by addition. */
  function Times(k: nat, n: nat): nat {
    if k == 0 then 0 else Times(k - 1, n) + n
  }

  lemma {:induction false} TimesIs(k: nat, n: nat)
    ensures Times(k, n) == k * n
  {
    if k == 0 {
    } else {
      TimesIs(k - 1, n);
      assert k * n == (k - 1) * n + n;
    }
  }

  /** An allocation spent in the last instant of a first period, and one at the start of each of `k` more. */
  function Burst(p: PublicKey, f: nat, callCount: u8, k: nat): seq<Op>
    requires f >= 2
  {
    if k == 0 then Round(p, f - 1, callCount)
    else Burst(p, f, callCount, k - 1) + Round(p, Times(k, f), callCount)
  }

  /** A limiter that tracks `p` alone. */
  function Alone(p: PublicKey, remaining: u8, callCount: u8, f: nat, since: nat): Limiter {
    Limiter(map[p := PeerRecord(true, remaining)], callCount, f, since)
  }

  lemma GrantedOnce(p: PublicKey, remaining: u8, callCount: u8, f: nat, since: nat, at: nat)
    requires callCount > 0 && since <= at && (at < since + f ==> remaining > 0)
    ensures var l, op := Alone(p, remaining, callCount, f, since), Query(p, at, at);
      && Grants(l, op, p)
      && Apply(l, op) == if at < since + f then Alone(p, remaining - 1, callCount, f, since)
                         else Alone(p, callCount - 1, callCount, f, at)
  {
  }

  /** Where a run stands: what `p` has left, when the period began, the clock, and the grants in a window. */
  datatype Point = Point(remaining: u8, since: nat, clock: nat, grants: int)

  /** A run after which `p` alone is tracked, and stands at `x`. */
  predicate Reaches(l: Limiter, ops: seq<Op>, p: PublicKey, from: int, to: int, x: Point) {
    && Ordered(l, ops) && Clock(l, ops) == x.clock
    && Run(l, ops) == Alone(p, x.remaining, l.callCount, l.callFrequency, x.since)
    && GrantsIn(l, ops, p, from, to) == x.grants
  }

  /** When the period that `at` is in began. */
  function Since(l: Limiter, x: Point, at: nat): nat {
    if at < x.since + l.callFrequency then x.since else at
  }

  lemma ReachesNext(l: Limiter, ops: seq<Op>, all: seq<Op>, p: PublicKey, from: int, to: int, x: Point, at: nat)
    requires Reaches(l, ops, p, from, to, x) && all == ops + [Query(p, at, at)]
    requires l.callCount > 0 && x.since <= at && x.clock <= at && from <= at < to
    requires at < x.since + l.callFrequency ==> x.remaining > 0
    ensures Reaches(l, all, p, from, to,
                    Point(if at < x.since + l.callFrequency then x.remaining - 1 else l.callCount - 1,
                          Since(l, x, at), at, x.grants + 1))
  {
    assert all[..|all| - 1] == ops;
    GrantedOnce(p, x.remaining, l.callCount, l.callFrequency, x.since, at);
  }

  /** A whole allocation is granted at once, to a peer that has it or at the start of a period. */
  lemma {:induction false} RoundGranted(
      l: Limiter, ops: seq<Op>, all: seq<Op>, p: PublicKey, from: int, to: int, x: Point, at: nat, n: nat)
    requires Reaches(l, ops, p, from, to, x) && all == ops + Round(p, at, n)
    requires 1 <= n <= l.callCount && x.since <= at && x.clock <= at && from <= at < to && l.callFrequency > 0
    requires at < x.since + l.callFrequency ==> x.remaining == l.callCount
    ensures Reaches(l, all, p, from, to, Point(l.callCount - n, Since(l, x, at), at, x.grants + n))
    decreases n
  {
    if n == 1 {
      assert Round(p, at, 1) == [Query(p, at, at)];
      ReachesNext(l, ops, all, p, from, to, x, at);
    } else {
      var prev := ops + Round(p, at, n - 1);
      assert all == prev + [Query(p, at, at)];
      RoundGranted(l, ops, prev, p, from, to, x, at, n - 1);
      ReachesNext(l, prev, all, p, from, to,
                  Point(l.callCount - (n - 1), Since(l, x, at), at, x.grants + (n - 1)), at);
    }
  }

  lemma {:induction false} BurstGranted(p: PublicKey, f: nat, c: u8, k: nat, to: int)
    requires f >= 2 && c >= 1 && f - 1 < to && Times(k, f) < to
    ensures Reaches(New([p], c, f, 0), Burst(p, f, c, k), p, f - 1, to,
                    Point(0, Times(k, f), if k == 0 then f - 1 else Times(k, f), Times(k + 1, c)))
  {
    var l := New([p], c, f, 0);
    if k == 0 {
      assert [] + Round(p, f - 1, c) == Burst(p, f, c, 0);
      RoundGranted(l, [], Burst(p, f, c, 0), p, f - 1, to, Point(c, 0, 0, 0), f - 1, c);
    } else {
      BurstGranted(p, f, c, k - 1, to);
      var since := Times(k - 1, f);
      RoundGranted(l, Burst(p, f, c, k - 1), Burst(p, f, c, k), p, f - 1, to,
                   Point(0, since, if k == 1 then f - 1 else since, Times(k, c)), since + f, c);
    }
  }

  /** The bound is attained, for every allocation and every `k`: the extra allocation in it cannot be dropped. */
  lemma WindowBoundAttained(p: PublicKey, f: nat, callCount: u8, k: nat)
    requires f >= 2 && callCount >= 1 && k >= 1
    ensures var l, ops := New([p], callCount, f, 0), Burst(p, f, callCount, k);
      Ordered(l, ops) && GrantsIn(l, ops, p, f - 1, f - 1 + k * f) == (k + 1) * callCount
  {
    TimesIs(k, f);
    TimesIs(k + 1, callCount);
    BurstGranted(p, f, callCount, k, f - 1 + Times(k, f));
  }

  // ---- Answers from history ----

  /** When the current period began, by the queries alone. */
  function PeriodStart(l: Limiter, ops: seq<Op>): nat
    decreases |ops|, 0
  {
    if ops == [] then l.lastUpdate else
      var before, op := ops[..|ops| - 1], ops[|ops| - 1];
      if op.Query? && Due(l, before, op) then op.updateAt else PeriodStart(l, before)
  }

  /** The query finds the period over. */
  predicate Due(l: Limiter, ops: seq<Op>, op: Op)
    requires op.Query?
    decreases |ops|, 1
  {
    l.callFrequency == 0 || PeriodStart(l, ops) + l.callFrequency <= op.checkAt
  }

  /** How many operations came before the one the current period began with. */
  function PeriodFrom(l: Limiter, ops: seq<Op>): (n: nat)
    ensures n <= |ops|
  {
    if ops == [] then 0 else
      var before, op := ops[..|ops| - 1], ops[|ops| - 1];
      if op.Query? && Due(l, before, op) then |before| else PeriodFrom(l, before)
  }

  /** The last that was heard of `p` is that it connected. */
  predicate OnlineAfter(l: Limiter, ops: seq<Op>, p: PublicKey) {
    if ops == [] then p in l.peers && l.peers[p].online else
      var op := ops[|ops| - 1];
      op == Connect(p) || (op != Disconnect(p) && OnlineAfter(l, ops[..|ops| - 1], p))
  }

  /** `p` was connected at some point of the current period. */
  predicate SeenInPeriod(l: Limiter, ops: seq<Op>, p: PublicKey) {
    exists k :: PeriodFrom(l, ops) <= k <= |ops| && OnlineAfter(l, ops[..k], p)
  }

  predicate AllOnline(l: Limiter) {
    forall p :: p in l.peers ==> l.peers[p].online
  }

  lemma {:induction false} PeriodStartIs(l: Limiter, ops: seq<Op>)
    ensures Run(l, ops).lastUpdate == PeriodStart(l, ops)
    ensures Run(l, ops).callFrequency == l.callFrequency
  {
    if ops == [] {
    } else {
      PeriodStartIs(l, ops[..|ops| - 1]);
    }
  }

  lemma SeenNext(l: Limiter, ops: seq<Op>, p: PublicKey)
    requires ops != []
    ensures var before, op := ops[..|ops| - 1], ops[|ops| - 1];
      SeenInPeriod(l, ops, p) <==>
        if op.Query? && Due(l, before, op) then OnlineAfter(l, before, p)
        else op == Connect(p) || SeenInPeriod(l, before, p)
  {
    var before, op := ops[..|ops| - 1], ops[|ops| - 1];
    assert ops[..|ops|] == ops && before[..|before|] == before;
    assert forall k :: 0 <= k <= |before| ==> ops[..k] == before[..k];
    assert OnlineAfter(l, ops, p) ==> op == Connect(p) || OnlineAfter(l, before[..|before|], p);
    if SeenInPeriod(l, before, p) {
      var k :| PeriodFrom(l, before) <= k <= |before| && OnlineAfter(l, before[..k], p);
      assert OnlineAfter(l, ops[..k], p);
    }
    assert OnlineAfter(l, before, p) ==> OnlineAfter(l, ops[..|before|], p);
  }

  lemma TrackedStep(l: Limiter, op: Op, p: PublicKey)
    ensures var l' := Apply(l, op);
      && (p in l'.peers <==>
            if op.Query? && NeedsUpdate(l, op.checkAt) then p in Online(l)
            else op == Connect(p) || p in l.peers)
      && (p in Online(l') <==> op == Connect(p) || (op != Disconnect(p) && p in Online(l)))
  {
  }

  /** Who is tracked, and who is online, by what was heard of them. */
  lemma {:induction false} TrackedBySight(l: Limiter, ops: seq<Op>, p: PublicKey)
    requires AllOnline(l)
    ensures p in Run(l, ops).peers <==> SeenInPeriod(l, ops, p)
    ensures p in Online(Run(l, ops)) <==> OnlineAfter(l, ops, p)
  {
    if ops == [] {
      assert ops[..0] == ops;
    } else {
      var before := ops[..|ops| - 1];
      TrackedBySight(l, before, p);
      PeriodStartIs(l, before);
      SeenNext(l, ops, p);
      TrackedStep(Run(l, before), ops[|ops| - 1], p);
    }
  }

  /**
   The answer to a query, by history alone: the first of a period is granted if the peer is
   connected; any other, if it was connected at some point of the period and has been granted
   less than an allocation in it.
   */
  lemma AnswerFromHistory(l: Limiter, ops: seq<Op>, op: Op)
    requires FullBuckets(l) && AllOnline(l) && op.Query?
    ensures Grants(Run(l, ops), op, op.peer) <==>
            if Due(l, ops, op) then OnlineAfter(l, ops, op.peer) && l.callCount > 0
            else SeenInPeriod(l, ops, op.peer) && PeriodGrants(l, ops, op.peer) < l.callCount
  {
    PeriodStartIs(l, ops);
    SameParameters(l, ops);
    TrackedBySight(l, ops, op.peer);
    TokensConserved(l, ops, op.peer);
  }

  lemma {:induction false} SomeAreAll(l: Limiter, ops: seq<Op>, p: PublicKey, from: int, to: int)
    ensures GrantsIn(l, ops, p, from, to) <= TotalGrants(l, ops, p)
  {
    if ops == [] {
    } else {
      SomeAreAll(l, ops[..|ops| - 1], p, from, to);
    }
  }

  /**
   The first period lasts from the limiter's creation for one call frequency: no query that reads
   the clock within it refreshes anything, so a peer gets one allocation in all; and the first
   query to read the clock after it begins the second.
   */
  lemma {:induction false} FirstPeriod(peers: seq<PublicKey>, callCount: u8, f: nat, now: nat, ops: seq<Op>, p: PublicKey)
    requires forall i :: 0 <= i < |ops| && ops[i].Query? ==> f > 0 && ops[i].checkAt < now + f
    ensures var l := New(peers, callCount, f, now);
      && Run(l, ops).lastUpdate == now && Run(l, ops).callFrequency == f
      && TotalGrants(l, ops, p) == PeriodGrants(l, ops, p) <= callCount
      && forall op: Op :: op.Query? && now + f <= op.checkAt ==> Apply(Run(l, ops), op).lastUpdate == op.updateAt
  {
    var l := New(peers, callCount, f, now);
    NewIsFull(peers, callCount, f, now);
    TokensConserved(l, ops, p);
    if ops == [] {
    } else {
      FirstPeriod(peers, callCount, f, now, ops[..|ops| - 1], p);
    }
  }

  // ---- Two runs ----

  /** The run with the operations at the given positions left out. */
  function Without(ops: seq<Op>, drop: set<nat>): seq<Op> {
    if ops == [] then [] else
      var n := |ops| - 1;
      Without(ops[..n], drop) + if n in drop then [] else [ops[n]]
  }

  lemma WithoutLast(ops: seq<Op>, drop: set<nat>)
    requires ops != []
    ensures var n, rest := |ops| - 1, Without(ops[..|ops| - 1], drop);
      if n in drop then Without(ops, drop) == rest
      else Without(ops, drop) == rest + [ops[n]] &&
           Without(ops, drop)[..|rest|] == rest
  {
  }

  /** `u` is at least as generous to `p`: same period, no tokens more, tracked and online if `t` says so. */
  predicate Favours(t: Limiter, u: Limiter, p: PublicKey) {
    && t.lastUpdate == u.lastUpdate
    && t.callCount == u.callCount
    && t.callFrequency == u.callFrequency
    && Tokens(u, p) <= Tokens(t, p)
    && (p in t.peers ==> p in u.peers && (t.peers[p].online ==> u.peers[p].online))
  }

  /** Grants to `p` in periods already over. */
  function PastGrants(l: Limiter, ops: seq<Op>, p: PublicKey): int {
    TotalGrants(l, ops, p) - PeriodGrants(l, ops, p)
  }

  lemma {:induction false} ReconnectInvariant(l: Limiter, ops: seq<Op>, drop: set<nat>, p: PublicKey)
    requires forall i :: 0 <= i < |ops| && i in drop ==> ops[i] == Disconnect(p)
    ensures Favours(Run(l, ops), Run(l, Without(ops, drop)), p)
    ensures PeriodGrants(l, ops, p) + Tokens(Run(l, ops), p) ==
            PeriodGrants(l, Without(ops, drop), p) + Tokens(Run(l, Without(ops, drop)), p)
    ensures PastGrants(l, ops, p) <= PastGrants(l, Without(ops, drop), p)
  {
    if ops == [] {
    } else {
      var before, op := ops[..|ops| - 1], ops[|ops| - 1];
      ReconnectInvariant(l, before, drop, p);
      WithoutLast(ops, drop);
      var t, u := Run(l, before), Run(l, Without(before, drop));
      TokensStep(t, op, p);
      TokensStep(u, op, p);
      FavoursStep(t, u, op, p);
    }
  }

  lemma FavoursStep(t: Limiter, u: Limiter, op: Op, p: PublicKey)
    requires Favours(t, u, p)
    ensures Favours(Apply(t, op), Apply(u, op), p)
    ensures op == Disconnect(p) ==> Favours(Apply(t, op), u, p)
  {
  }

  /**
   Reconnecting never pays: leave out any of a peer's disconnects, all of them for instance,
   and at every point of the run the limiter is in the same period, the peer has been granted
   at least as much in that period, and at least as much in all.
   */
  lemma ReconnectNeverPays(l: Limiter, ops: seq<Op>, drop: set<nat>, p: PublicKey, n: nat)
    requires n <= |ops|
    requires forall i :: 0 <= i < |ops| && i in drop ==> ops[i] == Disconnect(p)
    ensures Run(l, ops[..n]).lastUpdate == Run(l, Without(ops[..n], drop)).lastUpdate
    ensures PeriodGrants(l, ops[..n], p) <= PeriodGrants(l, Without(ops[..n], drop), p)
    ensures TotalGrants(l, ops[..n], p) <= TotalGrants(l, Without(ops[..n], drop), p)
  {
    ReconnectInvariant(l, ops[..n], drop, p);
  }

  /** `t` and `u` are indistinguishable to `q`. */
  predicate Alike(t: Limiter, u: Limiter, q: PublicKey) {
    && t.lastUpdate == u.lastUpdate
    && t.callCount == u.callCount
    && t.callFrequency == u.callFrequency
    && (q in t.peers <==> q in u.peers)
    && (q in t.peers ==> t.peers[q] == u.peers[q])
  }

  lemma AlikeStep(t: Limiter, u: Limiter, op: Op, q: PublicKey)
    requires Alike(t, u, q)
    ensures Alike(Apply(t, op), Apply(u, op), q)
    ensures Grants(t, op, q) == Grants(u, op, q)
    ensures !op.Query? && op.peer != q ==> Alike(Apply(t, op), u, q) && !Grants(t, op, q)
  {
  }

  /**
   Peer isolation: leaving out (or putting in) any connects and disconnects of other peers
   changes no answer to a query of `q`.
   */
  lemma {:induction false} PeerIsolation(l: Limiter, ops: seq<Op>, drop: set<nat>, q: PublicKey)
    requires forall i :: 0 <= i < |ops| && i in drop ==> !ops[i].Query? && ops[i].peer != q
    ensures Answers(l, ops, q) == Answers(l, Without(ops, drop), q)
    ensures Alike(Run(l, ops), Run(l, Without(ops, drop)), q)
  {
    if ops == [] {
    } else {
      var before, op := ops[..|ops| - 1], ops[|ops| - 1];
      PeerIsolation(l, before, drop, q);
      WithoutLast(ops, drop);
      AlikeStep(Run(l, before), Run(l, Without(before, drop)), op, q);
    }
  }
}

/** What the rate limiter guarantees over whole runs, and that the bound is the best possible. */
module ApiKeyLimits {
  import opened Common
  import opened ApiKeys

  const W := RATE_LIMIT_WINDOW_MS

  // ---------------------------------------------------------------- counting

  lemma CountSnoc(times: seq<int>, t: int, lo: int, hi: int)
    ensures CountIn(times + [t], lo, hi) == CountIn(times, lo, hi) + if lo <= t < hi then 1 else 0
  {
  }

  lemma {:induction false} CountSplit(a: seq<int>, b: seq<int>, lo: int, hi: int)
    ensures CountIn(a + b, lo, hi) == CountIn(a, lo, hi) + CountIn(b, lo, hi)
  {
    if b == [] {
      assert a + b == a;
    } else {
      var init, t := b[..|b| - 1], b[|b| - 1];
      CountSplit(a, init, lo, hi);
      CountSnoc(a + init, t, lo, hi);
      assert a + b == a + init + [t];
    }
  }

  lemma {:induction false} CountMono(times: seq<int>, lo: int, hi: int, lo': int, hi': int)
    requires lo' <= lo && hi <= hi'
    ensures CountIn(times, lo, hi) <= CountIn(times, lo', hi') <= |times|
  {
    if times != [] { CountMono(times[..|times| - 1], lo, hi, lo', hi'); }
  }

  lemma {:induction false} CountNone(times: seq<int>, lo: int, hi: int)
    requires forall k :: 0 <= k < |times| ==> times[k] < lo || hi <= times[k]
    ensures CountIn(times, lo, hi) == 0
  {
    if times != [] { CountNone(times[..|times| - 1], lo, hi); }
  }

  // ---------------------------------------------------------------- one key's limiter

  /**
   * The accepted times are older windows followed by the current one, which opened
   * with an accepted call. Older calls still within reach of the current window
   * miss the call that opened theirs, so they number at most L - 1.
   */
  ghost predicate WindowOk(older: seq<int>, current: seq<int>, b: Bucket, limit: int) {
    && 1 <= |current| == b.count <= limit
    && current[0] == b.windowStartedAt
    && (forall k :: 0 <= k < |current| ==> b.windowStartedAt <= current[k] < b.windowStartedAt + W)
    && (forall k :: 0 <= k < |older| ==> older[k] < b.windowStartedAt)
    && CountIn(older, b.windowStartedAt - W + 1, b.windowStartedAt) <= limit - 1
  }

  /** Calls in the minute from `a` on. */
  function PerMinute(times: seq<int>, a: int): nat { CountIn(times, a, a + W) }

  ghost predicate Bounded(times: seq<int>, limit: int) {
    forall a :: PerMinute(times, a) <= 2 * limit - 1
  }

  ghost predicate LimiterOk(times: seq<int>, b: Option<Bucket>, limit: int, clock: int) {
    && limit >= 1
    && (b == None ==> times == [])
    && (b.Some? ==> exists k :: 0 <= k <= |times| && WindowOk(times[..k], times[k..], b.value, limit))
    && (b.Some? ==> b.value.windowStartedAt <= clock)
    && Bounded(times, limit)
  }

  lemma SameWindow(older: seq<int>, current: seq<int>, b: Bucket, limit: int, now: int)
    requires WindowOk(older, current, b, limit) && Bounded(older + current, limit)
    requires b.windowStartedAt <= now < b.windowStartedAt + W && b.count < limit
    ensures WindowOk(older, current + [now], b.(count := b.count + 1), limit)
    ensures Bounded(older + current + [now], limit)
  {
    forall a
      ensures PerMinute(older + current + [now], a) <= 2 * limit - 1
    {
      CountSnoc(older + current, now, a, a + W);
      if a <= now < a + W {
        CountSplit(older, current, a, a + W);
        CountMono(current, a, a + W, a, a + W);
        ReachOfOlder(older, b.windowStartedAt, a);
      } else {
        assert PerMinute(older + current, a) <= 2 * limit - 1;
      }
    }
  }

  /** An interval that reaches past the start `s` sees only older calls later than s - W. */
  lemma {:induction false} ReachOfOlder(older: seq<int>, s: int, a: int)
    requires a + W > s && forall k :: 0 <= k < |older| ==> older[k] < s
    ensures CountIn(older, a, a + W) <= CountIn(older, s - W + 1, s)
  {
    if older != [] { ReachOfOlder(older[..|older| - 1], s, a); }
  }

  lemma {:induction false} AfterOpening(current: seq<int>, s: int, lo: int, hi: int)
    requires current != [] && current[0] == s && lo > s
    ensures CountIn(current, lo, hi) <= |current| - 1
  {
    if |current| > 1 { AfterOpening(current[..|current| - 1], s, lo, hi); }
  }

  lemma NewWindow(older: seq<int>, current: seq<int>, b: Bucket, limit: int, now: int)
    requires WindowOk(older, current, b, limit) && Bounded(older + current, limit)
    requires now >= b.windowStartedAt + W && limit >= 1
    ensures WindowOk(older + current, [now], Bucket(now, 1), limit)
    ensures Bounded(older + current + [now], limit)
  {
    var past, s := older + current, b.windowStartedAt;
    CountSplit(older, current, now - W + 1, now);
    CountNone(older, now - W + 1, now);
    AfterOpening(current, s, now - W + 1, now);
    assert forall k :: 0 <= k < |past| ==> past[k] < now;
    forall a
      ensures PerMinute(past + [now], a) <= 2 * limit - 1
    {
      CountSnoc(past, now, a, a + W);
      if a <= now < a + W {
        ReachOfOlder(past, now, a);
      } else {
        assert PerMinute(past, a) <= 2 * limit - 1;
      }
    }
  }

  lemma Opening(limit: int, now: int)
    requires limit >= 1
    ensures WindowOk([], [now], Bucket(now, 1), limit) && Bounded([now], limit)
  {
    forall a ensures PerMinute([now], a) <= 2 * limit - 1 { CountMono([now], a, a + W, a, a + W); }
  }

  lemma LimiterFrom(older: seq<int>, current: seq<int>, b: Bucket, limit: int, clock: int)
    requires WindowOk(older, current, b, limit) && Bounded(older + current, limit) && b.windowStartedAt <= clock
    ensures LimiterOk(older + current, Some(b), limit, clock)
  {
    var times := older + current;
    assert times[..|older|] == older && times[|older|..] == current;
  }

  /** An allowed call within the window, or one that opens the next. */
  lemma WindowCharges(older: seq<int>, current: seq<int>, b: Bucket, limit: int, now: int)
    requires WindowOk(older, current, b, limit) && Bounded(older + current, limit) && b.windowStartedAt <= now
    requires Allows(Some(b), limit, now)
    ensures LimiterOk(older + current + [now], Some(Charge(Some(b), now)), limit, now)
  {
    if now - b.windowStartedAt >= W {
      NewWindow(older, current, b, limit, now);
      LimiterFrom(older + current, [now], Bucket(now, 1), limit, now);
    } else {
      SameWindow(older, current, b, limit, now);
      assert older + current + [now] == older + (current + [now]);
      LimiterFrom(older, current + [now], b.(count := b.count + 1), limit, now);
    }
  }

  lemma FirstCharge(limit: int, now: int)
    requires limit >= 1
    ensures LimiterOk([now], Some(Bucket(now, 1)), limit, now)
  {
    Opening(limit, now);
    assert [] + [now] == [now];
    LimiterFrom([], [now], Bucket(now, 1), limit, now);
  }

  lemma LaterCharge(times: seq<int>, k: nat, b: Bucket, limit: int, now: int)
    requires k <= |times| && WindowOk(times[..k], times[k..], b, limit) && Bounded(times, limit)
    requires b.windowStartedAt <= now && Allows(Some(b), limit, now)
    ensures LimiterOk(times + [now], Some(Charge(Some(b), now)), limit, now)
  {
    assert times == times[..k] + times[k..];
    WindowCharges(times[..k], times[k..], b, limit, now);
  }

  /** An allowed call keeps the limiter's invariant. */
  lemma LimiterCharges(times: seq<int>, b: Option<Bucket>, limit: int, clock: int, now: int)
    requires LimiterOk(times, b, limit, clock) && clock <= now && Allows(b, limit, now)
    ensures LimiterOk(times + [now], Some(Charge(b, now)), limit, now)
  {
    match b
    case None =>
      assert times + [now] == [now];
      FirstCharge(limit, now);
    case Some(bucket) =>
      var k :| 0 <= k <= |times| && WindowOk(times[..k], times[k..], bucket, limit);
      LaterCharge(times, k, bucket, limit, now);
  }

  // ---------------------------------------------------------------- all keys

  ghost predicate KeyOk(s: State, r: Record, clock: int) {
    && r.usageCount == |Uses(s.audits, r.id)|
    && LimiterOk(Uses(s.audits, r.id), BucketOf(s.buckets, r.id), r.rateLimitPerMinute, clock)
  }

  ghost predicate Inv(s: State, clock: int) {
    && (forall i, j :: 0 <= i < j < |s.records| ==> s.records[i].id != s.records[j].id)
    && (forall i :: 0 <= i < |s.records| ==> KeyOk(s, s.records[i], clock))
    && AllMentioned(s)
  }

  ghost predicate Mentioned(audits: seq<Audit>, id: KeyId) { exists a <- audits :: a.apiKeyId == id }

  lemma {:induction false} UnmentionedUnused(audits: seq<Audit>, id: KeyId)
    requires !Mentioned(audits, id)
    ensures Uses(audits, id) == []
  {
    if audits != [] {
      assert audits[|audits| - 1] in audits;
      assert forall a <- audits[..|audits| - 1] :: a in audits;
      UnmentionedUnused(audits[..|audits| - 1], id);
    }
  }

  /** A key whose counters, limit, bucket and uses are untouched stays as good as it was. */
  lemma KeyKept(s: State, s': State, r: Record, r': Record, clock: int, now: int)
    requires KeyOk(s, r, clock) && clock <= now
    requires r'.id == r.id && r'.usageCount == r.usageCount && r'.rateLimitPerMinute == r.rateLimitPerMinute
    requires Uses(s'.audits, r.id) == Uses(s.audits, r.id) && BucketOf(s'.buckets, r.id) == BucketOf(s.buckets, r.id)
    ensures KeyOk(s', r', now)
  {
  }

  /** The ids of records and buckets all have an audit row. */
  ghost predicate AllMentioned(s: State) {
    && (forall i :: 0 <= i < |s.records| ==> Mentioned(s.audits, s.records[i].id))
    && (forall id <- s.buckets :: Mentioned(s.audits, id))
  }

  /** An audit row that is not a use of `r`, and an untouched bucket, keep key `r`. */
  lemma RowKeepsKey(s: State, s': State, r: Record, r': Record, a: Audit, clock: int, now: int)
    requires KeyOk(s, r, clock) && clock <= now && s'.audits == s.audits + [a]
    requires a.apiKeyId != r.id || a.action != Used
    requires r'.id == r.id && r'.usageCount == r.usageCount && r'.rateLimitPerMinute == r.rateLimitPerMinute
    requires BucketOf(s'.buckets, r.id) == BucketOf(s.buckets, r.id)
    ensures KeyOk(s', r', now)
  {
    KeyKept(s, s', r, r', clock, now);
  }

  /** One record rewritten, its identity and counters kept, and one audit row that is not a use. */
  lemma EditKeepsInv(s: State, s': State, i: nat, a: Audit, clock: int, now: int)
    requires Inv(s, clock) && clock <= now && i < |s.records|
    requires |s'.records| == |s.records| && s'.buckets == s.buckets
    requires forall k :: 0 <= k < |s.records| && k != i ==> s'.records[k] == s.records[k]
    requires s'.records[i].id == s.records[i].id && s'.records[i].usageCount == s.records[i].usageCount
    requires s'.records[i].rateLimitPerMinute == s.records[i].rateLimitPerMinute
    requires s'.audits == s.audits + [a] && a.action != Used
    ensures Inv(s', now)
  {
    assert forall k :: 0 <= k < |s'.records| ==> s'.records[k].id == s.records[k].id;
    forall k | 0 <= k < |s'.records|
      ensures KeyOk(s', s'.records[k], now)
    {
      RowKeepsKey(s, s', s.records[k], s'.records[k], a, clock, now);
    }
  }

  lemma OldKeysOk(s: State, s': State, a: Audit, clock: int, now: int)
    requires Inv(s, clock) && clock <= now && s.records <= s'.records && s'.buckets == s.buckets
    requires s'.audits == s.audits + [a] && a.action != Used
    ensures forall k :: 0 <= k < |s.records| ==> KeyOk(s', s'.records[k], now)
  {
    forall k | 0 <= k < |s.records|
      ensures KeyOk(s', s'.records[k], now)
    {
      RowKeepsKey(s, s', s.records[k], s'.records[k], a, clock, now);
    }
  }

  /** A new unused record and its audit row. */
  lemma AddingKeepsInv(s: State, s': State, r: Record, a: Audit, clock: int, now: int)
    requires Inv(s, clock) && clock <= now && !Mentioned(s.audits, r.id)
    requires s'.records == s.records + [r] && s'.audits == s.audits + [a] && s'.buckets == s.buckets
    requires r.usageCount == 0 && r.rateLimitPerMinute >= 1 && a.apiKeyId == r.id && a.action != Used
    ensures Inv(s', now)
  {
    var n := |s.records|;
    assert forall k :: 0 <= k < n ==> s'.records[k] == s.records[k] && Mentioned(s.audits, s.records[k].id);
    CreatedOk(s, s', s'.records[n], a, now);
    OldKeysOk(s, s', a, clock, now);
  }

  lemma CreateKeepsInv(s: State, op: Op, clock: int, now: int)
    requires Inv(s, clock) && clock <= now && op.CreateKey? && !Mentioned(s.audits, op.id)
    ensures Inv(Next(s, op, now), now)
  {
    var r := NewRecord(op.id, op.name, op.plaintext, op.salt, op.scopes, op.rateLimit, op.expiresAt, op.createdBy, now);
    AddingKeepsInv(s, Next(s, op, now), r, Audit(op.id, Action.Created, op.createdBy, Some(r.name), now), clock, now);
  }

  lemma CreatedOk(s: State, s': State, r: Record, a: Audit, now: int)
    requires AllMentioned(s) && !Mentioned(s.audits, r.id) && s'.audits == s.audits + [a] && a.action != Used
    requires s'.buckets == s.buckets && r.usageCount == 0 && r.rateLimitPerMinute >= 1
    ensures KeyOk(s', r, now)
  {
    UnmentionedUnused(s.audits, r.id);
  }

  lemma UsedKeyOk(s: State, s': State, r: Record, r': Record, clock: int, now: int)
    requires KeyOk(s, r, clock) && clock <= now && Allows(BucketOf(s.buckets, r.id), r.rateLimitPerMinute, now)
    requires Uses(s'.audits, r.id) == Uses(s.audits, r.id) + [now]
    requires BucketOf(s'.buckets, r.id) == Some(Charge(BucketOf(s.buckets, r.id), now))
    requires r'.id == r.id && r'.usageCount == r.usageCount + 1 && r'.rateLimitPerMinute == r.rateLimitPerMinute
    ensures KeyOk(s', r', now)
  {
    var times, b := Uses(s.audits, r.id), BucketOf(s.buckets, r.id);
    LimiterCharges(times, b, r.rateLimitPerMinute, clock, now);
  }

  lemma UsedOthersOk(s: State, s': State, i: nat, a: Audit, clock: int, now: int)
    requires Inv(s, clock) && clock <= now && i < |s.records| == |s'.records| && a.apiKeyId == s.records[i].id
    requires s'.audits == s.audits + [a]
    requires forall id :: id != a.apiKeyId ==> BucketOf(s'.buckets, id) == BucketOf(s.buckets, id)
    requires forall k :: 0 <= k < |s.records| && k != i ==> s'.records[k] == s.records[k]
    ensures forall k :: 0 <= k < |s'.records| && k != i ==> KeyOk(s', s'.records[k], now)
  {
    forall k | 0 <= k < |s'.records| && k != i
      ensures KeyOk(s', s'.records[k], now)
    {
      assert s.records[k].id != a.apiKeyId;
      RowKeepsKey(s, s', s.records[k], s'.records[k], a, clock, now);
    }
  }

  lemma UseKeepsInv(s: State, i: nat, clientIp: Option<string>, clock: int, now: int)
    requires Inv(s, clock) && clock <= now && i < |s.records|
    requires Allows(BucketOf(s.buckets, s.records[i].id), s.records[i].rateLimitPerMinute, now)
    ensures Inv(Use(s, i, clientIp, now), now)
  {
    var s', me := Use(s, i, clientIp, now), s.records[i];
    var a := Audit(me.id, Used, me.name, clientIp, now);
    UsedKeyOk(s, s', me, s'.records[i], clock, now);
    UsedOthersOk(s, s', i, a, clock, now);
  }

  lemma InvLater(s: State, clock: int, now: int)
    requires Inv(s, clock) && clock <= now
    ensures Inv(s, now)
  {
  }

  lemma InvNext(s: State, op: Op, clock: int, now: int)
    requires Inv(s, clock) && clock <= now && Admissible(s, op)
    ensures Inv(Next(s, op, now), now)
  {
    match op
    case CreateKey(_, _, _, _, _, _, _, _) => CreateKeepsInv(s, op, clock, now);
    case ValidateKey(plaintext, scopes, ip) =>
      if Verify(s, plaintext, scopes, now).Accepted? {
        UseKeepsInv(s, FirstMatch(s.records, plaintext, now), ip, clock, now);
      } else {
        InvLater(s, clock, now);
      }
    case _ =>
      var i := IndexOf(s.records, op.id);
      if i < |s.records| {
        var s' := Next(s, op, now);
        EditKeepsInv(s, s', i, s'.audits[|s.audits|], clock, now);
      } else {
        InvLater(s, clock, now);
      }
  }

  // ---------------------------------------------------------------- runs

  /** Operations with the times they ran at, on a clock that never goes back. */
  ghost predicate Run(s: State, ops: seq<(Op, int)>, clock: int)
    decreases |ops|
  {
    ops == [] || (clock <= ops[0].1 && Admissible(s, ops[0].0) && Run(Next(s, ops[0].0, ops[0].1), ops[1..], ops[0].1))
  }

  function After(s: State, ops: seq<(Op, int)>): State
    decreases |ops|
  {
    if ops == [] then s else After(Next(s, ops[0].0, ops[0].1), ops[1..])
  }

  function LastClock(ops: seq<(Op, int)>, clock: int): int {
    if ops == [] then clock else ops[|ops| - 1].1
  }

  lemma {:induction false} RunKeeps(s: State, ops: seq<(Op, int)>, clock: int)
    requires Inv(s, clock) && Run(s, ops, clock)
    ensures Inv(After(s, ops), LastClock(ops, clock))
    decreases |ops|
  {
    if ops != [] {
      var s' := StepKeeps(s, ops, clock);
      RunKeeps(s', ops[1..], ops[0].1);
    }
  }

  lemma StepKeeps(s: State, ops: seq<(Op, int)>, clock: int) returns (s': State)
    requires ops != [] && Inv(s, clock) && Run(s, ops, clock)
    ensures Inv(s', ops[0].1) && Run(s', ops[1..], ops[0].1) && After(s', ops[1..]) == After(s, ops)
    ensures LastClock(ops[1..], ops[0].1) == LastClock(ops, clock)
  {
    s' := Next(s, ops[0].0, ops[0].1);
    InvNext(s, ops[0].0, clock, ops[0].1);
  }

  /** Validations of a run that accepted key `id`. */
  function Acceptances(s: State, ops: seq<(Op, int)>, id: KeyId): nat
    decreases |ops|
  {
    if ops == [] then 0
    else
      var (op, now) := ops[0];
      (if op.ValidateKey? && Verify(s, op.plaintext, op.requiredScopes, now) == Accepted(id) then 1 else 0)
      + Acceptances(Next(s, op, now), ops[1..], id)
  }

  lemma OneUse(s: State, op: Op, now: int, id: KeyId)
    ensures |Uses(Next(s, op, now).audits, id)| == |Uses(s.audits, id)|
      + if op.ValidateKey? && Verify(s, op.plaintext, op.requiredScopes, now) == Accepted(id) then 1 else 0
  {
  }

  lemma {:induction false} UsesAreAcceptances(s: State, ops: seq<(Op, int)>, id: KeyId)
    ensures |Uses(After(s, ops).audits, id)| == |Uses(s.audits, id)| + Acceptances(s, ops, id)
    decreases |ops|
  {
    if ops != [] {
      OneUse(s, ops[0].0, ops[0].1, id);
      UsesAreAcceptances(Next(s, ops[0].0, ops[0].1), ops[1..], id);
    }
  }

  /**
   * Whatever the run and whatever other keys do: any half-open minute holds at most
   * 2L - 1 accepted calls of a key with limit L, and the usage counter, the "used"
   * audit rows and the accepted validations agree.
   */
  lemma {:induction false} EveryRun(ops: seq<(Op, int)>, clock: int, i: nat, a: int)
    requires Run(EMPTY, ops, clock) && i < |After(EMPTY, ops).records|
    ensures var s := After(EMPTY, ops);
      var r := s.records[i];
      && CountIn(Uses(s.audits, r.id), a, a + RATE_LIMIT_WINDOW_MS) <= 2 * r.rateLimitPerMinute - 1
      && r.usageCount == |Uses(s.audits, r.id)| == Acceptances(EMPTY, ops, r.id)
  {
    var s := After(EMPTY, ops);
    RunKeeps(EMPTY, ops, clock);
    assert KeyOk(s, s.records[i], LastClock(ops, clock));
    assert PerMinute(Uses(s.audits, s.records[i].id), a) <= 2 * s.records[i].rateLimitPerMinute - 1;
    UsesAreAcceptances(EMPTY, ops, s.records[i].id);
  }

  // ---------------------------------------------------------------- the bound is attained

  /** Every call in turn is allowed, starting from bucket `b`. */
  predicate AllAllowed(b: Option<Bucket>, limit: int, times: seq<int>)
    decreases |times|
  {
    times == [] || (Allows(b, limit, times[0]) && AllAllowed(Some(Charge(b, times[0])), limit, times[1..]))
  }

  function Repeat(t: int, n: nat): (r: seq<int>)
    ensures |r| == n && forall k :: 0 <= k < n ==> r[k] == t
  {
    seq(n, _ => t)
  }

  lemma {:induction false} RepeatAllowed(b: Bucket, limit: int, t: int, n: nat, rest: seq<int>)
    requires t - b.windowStartedAt < W && b.count + n <= limit
    requires AllAllowed(Some(b.(count := b.count + n)), limit, rest)
    ensures AllAllowed(Some(b), limit, Repeat(t, n) + rest)
    decreases n
  {
    var times := Repeat(t, n) + rest;
    if n == 0 {
      assert times == rest;
    } else {
      RepeatAllowed(b.(count := b.count + 1), limit, t, n - 1, rest);
      assert times[1..] == Repeat(t, n - 1) + rest;
    }
  }

  lemma {:induction false} RepeatCount(t: int, n: nat, lo: int, hi: int)
    requires lo <= t < hi
    ensures CountIn(Repeat(t, n), lo, hi) == n
  {
    if n > 0 {
      RepeatCount(t, n - 1, lo, hi);
      assert Repeat(t, n)[..n - 1] == Repeat(t, n - 1);
    }
  }

  /** L calls at the end of the first window, all but the opening one in the minute from 1, then L in the next. */
  function Burst(limit: int): seq<int>
    requires limit >= 1
  {
    [0] + Repeat(W - 1, limit - 1) + ([W] + Repeat(W, limit - 1))
  }

  lemma BurstAllowed(limit: int)
    requires limit >= 1
    ensures AllAllowed(None, limit, Burst(limit))
  {
    var late, second := Repeat(W - 1, limit - 1), [W] + Repeat(W, limit - 1);
    RepeatAllowed(Bucket(W, 1), limit, W, limit - 1, []);
    assert Repeat(W, limit - 1) + [] == second[1..];
    assert AllAllowed(Some(Bucket(0, limit)), limit, second);
    RepeatAllowed(Bucket(0, 1), limit, W - 1, limit - 1, second);
    assert Burst(limit)[1..] == late + second;
  }

  lemma BurstCount(limit: int)
    requires limit >= 1
    ensures CountIn(Burst(limit), 1, 1 + W) == 2 * limit - 1
  {
    var late, next := Repeat(W - 1, limit - 1), Repeat(W, limit - 1);
    CountSplit([0] + late, [W] + next, 1, 1 + W);
    CountSplit([0], late, 1, 1 + W);
    CountSplit([W], next, 1, 1 + W);
    RepeatCount(W - 1, limit - 1, 1, 1 + W);
    RepeatCount(W, limit - 1, 1, 1 + W);
    assert CountIn([0], 1, 1 + W) == 0 && CountIn([W], 1, 1 + W) == 1;
  }

  /** The calls of one client that presents its key at the given times. */
  function Validations(secret: string, times: seq<int>): seq<(Op, int)> {
    if times == [] then [] else [(ValidateKey(secret, [], None), times[0])] + Validations(secret, times[1..])
  }

  /** The table holds one live key, of this secret and limit. */
  predicate OnlyKey(s: State, id: KeyId, secret: string, limit: int) {
    && |s.records| == 1
    && var r := s.records[0];
      && r.id == id && r.rateLimitPerMinute == limit && r.revokedAt == None && r.expiresAt == None
      && r.prefix == PrefixOf(secret) && r.hash == DeriveHash(secret, r.salt)
  }

  /** A run of calls that ends with the same one key and these uses of it. */
  ghost predicate Presents(
      s: State, calls: seq<(Op, int)>, clock: int, id: KeyId, secret: string, limit: int, uses: seq<int>)
  {
    Run(s, calls, clock) && OnlyKey(After(s, calls), id, secret, limit) && Uses(After(s, calls).audits, id) == uses
  }

  lemma {:induction false} AllPresented(s: State, id: KeyId, secret: string, limit: int, times: seq<int>, clock: int)
    requires OnlyKey(s, id, secret, limit) && AllAllowed(BucketOf(s.buckets, id), limit, times)
    requires Ascending(times) && (times != [] ==> clock <= times[0])
    ensures Presents(s, Validations(secret, times), clock, id, secret, limit, Uses(s.audits, id) + times)
    decreases |times|
  {
    if times == [] {
      assert Uses(s.audits, id) + times == Uses(s.audits, id);
    } else {
      var first, rest, before := (ValidateKey(secret, [], None), times[0]), times[1..], Uses(s.audits, id);
      AllPresented(Next(s, first.0, times[0]), id, secret, limit, rest, times[0]);
      assert before + [times[0]] + rest == before + times;
      PresentsCons(s, first, Validations(secret, rest), clock, id, secret, limit, before + times);
    }
  }

  lemma PresentsCons(
      s: State, first: (Op, int), rest: seq<(Op, int)>, clock: int,
      id: KeyId, secret: string, limit: int, uses: seq<int>)
    requires clock <= first.1 && Admissible(s, first.0)
    requires Presents(Next(s, first.0, first.1), rest, first.1, id, secret, limit, uses)
    ensures Presents(s, [first] + rest, clock, id, secret, limit, uses)
  {
    RunCons(s, first, rest, clock);
  }

  lemma RunCons(s: State, first: (Op, int), rest: seq<(Op, int)>, clock: int)
    requires clock <= first.1 && Admissible(s, first.0) && Run(Next(s, first.0, first.1), rest, first.1)
    ensures Run(s, [first] + rest, clock) && After(s, [first] + rest) == After(Next(s, first.0, first.1), rest)
  {
    var ops := [first] + rest;
    assert ops[0] == first && ops[1..] == rest;
  }

  lemma KeyCreated(op: Op, limit: int)
    requires op.CreateKey? && op.rateLimit == Some(limit as real) && op.expiresAt == None && limit >= 1
    ensures var s := Next(EMPTY, op, 0);
      OnlyKey(s, op.id, op.plaintext, limit) && BucketOf(s.buckets, op.id) == None && Uses(s.audits, op.id) == []
  {
  }

  lemma BurstRun(create: Op, limit: int, times: seq<int>)
    requires limit >= 1 && create.CreateKey? && create.rateLimit == Some(limit as real) && create.expiresAt == None
    requires Ascending(times) && (times != [] ==> 0 <= times[0]) && AllAllowed(None, limit, times)
    ensures var ops := [(create, 0)] + Validations(create.plaintext, times);
      && Run(EMPTY, ops, 0)
      && OnlyKey(After(EMPTY, ops), create.id, create.plaintext, limit)
      && Uses(After(EMPTY, ops).audits, create.id) == times
  {
    var s, calls := Next(EMPTY, create, 0), Validations(create.plaintext, times);
    KeyCreated(create, limit);
    AllPresented(s, create.id, create.plaintext, limit, times, 0);
    RunCons(EMPTY, (create, 0), calls, 0);
    assert [] + times == times;
  }

  /** The key is created at time 0 and then presented at the times of the burst. */
  function BurstCalls(limit: int, create: Op): seq<(Op, int)>
    requires limit >= 1 && create.CreateKey?
  {
    [(create, 0)] + Validations(create.plaintext, Burst(limit))
  }

  /**
   * Every key without an expiry, of any limit L, can be created and then presented in a run
   * in which one minute holds 2L - 1 accepted calls of it, so the bound cannot be lowered.
   */
  lemma BoundAttained(limit: int, create: Op)
    requires limit >= 1 && create.CreateKey? && create.rateLimit == Some(limit as real) && create.expiresAt == None
    ensures Ascending(Burst(limit)) && AllAllowed(None, limit, Burst(limit))
    ensures var ops := BurstCalls(limit, create);
      && Run(EMPTY, ops, 0)
      && var s := After(EMPTY, ops);
        && |s.records| == 1 && s.records[0].id == create.id && s.records[0].rateLimitPerMinute == limit
        && Uses(s.audits, create.id) == Burst(limit)
        && CountIn(Uses(s.audits, create.id), 1, 1 + RATE_LIMIT_WINDOW_MS) == 2 * limit - 1
  {
    BurstAllowed(limit);
    BurstCount(limit);
    BurstRun(create, limit, Burst(limit));
  }
}

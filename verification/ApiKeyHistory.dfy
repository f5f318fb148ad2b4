/** Which keys a run accepts, read off its calls: secrets issued, revocations, expiries, scopes and uses. */
module ApiKeyHistory {
  import opened Common
  import opened Texts
  import opened ApiKeys
  import opened ApiKeyLimits

  // ---------------------------------------------------------------- acceptance

  /** The first sixteen characters, or all of them when there are fewer. */
  predicate IsPrefix(prefix: string, secret: string) {
    prefix <= secret && (|prefix| == 16 || (|prefix| < 16 && prefix == secret))
  }

  /** The secret belongs to the record, which is neither revoked nor expired. */
  predicate Live(r: Record, secret: string, now: int) {
    && r.hash == DeriveHash(secret, r.salt) && IsPrefix(r.prefix, secret)
    && r.revokedAt.None? && (r.expiresAt.Some? ==> now < r.expiresAt.value)
  }

  predicate FirstLive(rs: seq<Record>, i: nat, secret: string, now: int) {
    i < |rs| && Live(rs[i], secret, now) && forall k :: 0 <= k < i ==> !Live(rs[k], secret, now)
  }

  predicate Entitled(r: Record, required: seq<string>) {
    forall scope <- required :: "*" in r.scopes || scope in r.scopes
  }

  predicate UnderLimit(s: State, r: Record, now: int) {
    r.id in s.buckets ==>
      now >= s.buckets[r.id].windowStartedAt + 60000 || s.buckets[r.id].count + 1 <= r.rateLimitPerMinute
  }

  lemma LiveIff(r: Record, secret: string, now: int)
    ensures Matches(r, secret, now) <==> Live(r, secret, now)
  {
  }

  lemma FirstLiveIff(rs: seq<Record>, i: nat, secret: string, now: int)
    ensures FirstLive(rs, i, secret, now) <==> i < |rs| && i == FirstMatch(rs, secret, now)
  {
    forall k | 0 <= k < |rs|
      ensures Matches(rs[k], secret, now) <==> Live(rs[k], secret, now)
    {
      LiveIff(rs[k], secret, now);
    }
  }

  /** Record `i` decides, and lets the call through. */
  predicate Accepts(s: State, i: nat, secret: string, required: seq<string>, now: int) {
    FirstLive(s.records, i, secret, now) && Entitled(s.records[i], required) && UnderLimit(s, s.records[i], now)
  }

  /** A presented secret is accepted as the key of a record, refused, or over its limit, exactly when this says so. */
  predicate Answers(s: State, secret: string, required: seq<string>, now: int, v: Verdict) {
    match v
    case Accepted(id) =>
      exists i :: 0 <= i < |s.records| && Accepts(s, i, secret, required, now) && s.records[i].id == id
    case RateLimited =>
      exists i :: 0 <= i < |s.records| && FirstLive(s.records, i, secret, now)
        && Entitled(s.records[i], required) && !UnderLimit(s, s.records[i], now)
    case Refused =>
      forall i :: 0 <= i < |s.records| && FirstLive(s.records, i, secret, now) ==> !Entitled(s.records[i], required)
  }

  lemma VerdictIff(s: State, secret: string, required: seq<string>, now: int, v: Verdict)
    ensures Verify(s, secret, required, now) == v <==> Answers(s, secret, required, now, v)
  {
    forall i | 0 <= i < |s.records|
      ensures FirstLive(s.records, i, secret, now) <==> i == FirstMatch(s.records, secret, now)
    {
      FirstLiveIff(s.records, i, secret, now);
    }
  }

  // ---------------------------------------------------------------- a revoked key

  ghost predicate Out(s: State, id: KeyId) {
    forall i :: 0 <= i < |s.records| && s.records[i].id == id ==> s.records[i].revokedAt.Some?
  }

  predicate Rotates(op: Op, id: KeyId) { op.RotateKey? && op.id == id }

  lemma NeverAcceptedOut(s: State, secret: string, required: seq<string>, now: int, id: KeyId)
    requires Out(s, id)
    ensures Verify(s, secret, required, now) != Accepted(id)
  {
    VerdictIff(s, secret, required, now, Accepted(id));
  }

  lemma NextOut(s: State, op: Op, now: int, id: KeyId)
    requires Out(s, id) && Mentioned(s.audits, id) && Admissible(s, op) && !Rotates(op, id)
    ensures Out(Next(s, op, now), id) && Mentioned(Next(s, op, now).audits, id)
  {
    var more := Next(s, op, now).audits;
    assert forall a <- s.audits :: a in more;
  }

  lemma {:induction false} StaysOut(s: State, ops: seq<(Op, int)>, clock: int, id: KeyId)
    requires Out(s, id) && Mentioned(s.audits, id) && Run(s, ops, clock)
    requires forall k :: 0 <= k < |ops| ==> !Rotates(ops[k].0, id)
    ensures Out(After(s, ops), id) && Acceptances(s, ops, id) == 0
    decreases |ops|
  {
    if ops != [] {
      var (op, now) := ops[0];
      if op.ValidateKey? { NeverAcceptedOut(s, op.plaintext, op.requiredScopes, now, id); }
      NextOut(s, op, now, id);
      StaysOut(Next(s, op, now), ops[1..], now, id);
    }
  }

  /** After a key is revoked it is accepted for nothing, whatever is called, until it is rotated. */
  lemma {:induction false} RevokedUntilRotated(s: State, clock: int, id: KeyId, actor: string, at: int,
                                               ops: seq<(Op, int)>)
    requires Inv(s, clock) && clock <= at && exists r <- s.records :: r.id == id
    requires Run(Next(s, RevokeKey(id, actor), at), ops, at)
    requires forall k :: 0 <= k < |ops| ==> !Rotates(ops[k].0, id)
    ensures Acceptances(Next(s, RevokeKey(id, actor), at), ops, id) == 0
    ensures Out(After(Next(s, RevokeKey(id, actor), at), ops), id)
  {
    var s' := Next(s, RevokeKey(id, actor), at);
    var i := IndexOf(s.records, id);
    assert s'.audits[|s.audits|].apiKeyId == id;
    assert Mentioned(s'.audits, id);
    StaysOut(s', ops, at, id);
  }

  // ---------------------------------------------------------------- a key is what its calls made it

  type History = seq<(Op, int)>

  /** How a key stands: as it was created, with the secret issued last, and whether revoked since. */
  datatype Standing = Standing(created: Op, secret: string, revoked: bool, expiry: Option<int>)

  function StandingOf(past: History, id: KeyId): Option<Standing> {
    if past == [] then None
    else
      var (op, now) := past[|past| - 1];
      var before := StandingOf(past[..|past| - 1], id);
      match op
      case CreateKey(i, _, secret, _, _, _, expiry, _) =>
        if i == id then Some(Standing(op, secret, false, expiry)) else before
      case RevokeKey(i, _) =>
        if i == id && before.Some? then Some(before.value.(revoked := true)) else before
      case RotateKey(i, _, secret, _) =>
        if i == id && before.Some? then Some(before.value.(secret := secret, revoked := false)) else before
      case ExtendKey(i, _, days) =>
        if i == id && before.Some? then
          Some(before.value.(expiry :=
            Some((match before.value.expiry case Some(t) => t case None => now) + days * 86400000)))
        else before
      case ValidateKey(_, _, _) => before
  }

  ghost predicate Stands(r: Record, st: Option<Standing>) {
    && st.Some? && st.value.created.CreateKey?
    && r.hash == DeriveHash(st.value.secret, r.salt) && IsPrefix(r.prefix, st.value.secret)
    && (r.revokedAt.Some? <==> st.value.revoked) && r.expiresAt == st.value.expiry
    && r.name == Trim(st.value.created.name) && r.createdBy == st.value.created.createdBy
    && r.scopes == NormalizeScopes(st.value.created.scopes)
    && r.rateLimitPerMinute == NormalizeRateLimit(st.value.created.rateLimit)
  }

  ghost predicate AllStand(s: State, past: History) {
    && (forall i :: 0 <= i < |s.records| ==> Stands(s.records[i], StandingOf(past, s.records[i].id)))
    && (forall i, j :: 0 <= i < j < |s.records| ==> s.records[i].id != s.records[j].id)
  }

  lemma StandingSnoc(past: History, op: Op, now: int)
    ensures (past + [(op, now)])[..|past|] == past
  {
  }

  lemma OtherStands(past: History, op: Op, now: int, id: KeyId)
    requires op.ValidateKey? || op.id != id
    ensures StandingOf(past + [(op, now)], id) == StandingOf(past, id)
  {
    StandingSnoc(past, op, now);
  }

  lemma {:induction false} RevokeStands(s: State, past: History, id: KeyId, actor: string, now: int, i: nat)
    requires i < |s.records| && i == IndexOf(s.records, id) && Stands(s.records[i], StandingOf(past, id))
    ensures Stands(Next(s, RevokeKey(id, actor), now).records[i], StandingOf(past + [(RevokeKey(id, actor), now)], id))
  {
    StandingSnoc(past, RevokeKey(id, actor), now);
  }

  lemma {:induction false} ExtendStands(s: State, past: History, id: KeyId, actor: string, days: int, now: int, i: nat)
    requires i < |s.records| && i == IndexOf(s.records, id) && Stands(s.records[i], StandingOf(past, id))
    ensures var op := ExtendKey(id, actor, days);
      Stands(Next(s, op, now).records[i], StandingOf(past + [(op, now)], id))
  {
    StandingSnoc(past, ExtendKey(id, actor, days), now);
  }

  lemma {:induction false} RotateStands(s: State, past: History, op: Op, now: int, i: nat)
    requires op.RotateKey? && i < |s.records| && i == IndexOf(s.records, op.id)
    requires Stands(s.records[i], StandingOf(past, op.id))
    ensures Stands(Next(s, op, now).records[i], StandingOf(past + [(op, now)], op.id))
  {
    StandingSnoc(past, op, now);
  }

  lemma {:induction false} EditStands(s: State, past: History, op: Op, now: int, i: nat)
    requires i < |s.records| && (op.RevokeKey? || op.RotateKey? || op.ExtendKey?) && i == IndexOf(s.records, op.id)
    requires Stands(s.records[i], StandingOf(past, op.id))
    ensures Stands(Next(s, op, now).records[i], StandingOf(past + [(op, now)], op.id))
  {
    match op {
      case RevokeKey(id, actor) => RevokeStands(s, past, id, actor, now, i);
      case ExtendKey(id, actor, days) => ExtendStands(s, past, id, actor, days, now, i);
      case RotateKey(_, _, _, _) => RotateStands(s, past, op, now, i);
    }
  }

  lemma CreateStands(s: State, past: History, op: Op, now: int)
    requires AllStand(s, past) && op.CreateKey? && forall i :: 0 <= i < |s.records| ==> s.records[i].id != op.id
    ensures AllStand(Next(s, op, now), past + [(op, now)])
  {
    StandingSnoc(past, op, now);
    var records := Next(s, op, now).records;
    forall i | 0 <= i < |records|
      ensures Stands(records[i], StandingOf(past + [(op, now)], records[i].id))
    {
      if i < |s.records| {
        assert Stands(s.records[i], StandingOf(past, s.records[i].id));
        OtherStands(past, op, now, s.records[i].id);
      }
    }
  }

  /** An operation on existing keys leaves the record at `i` as it stood, unless it names it. */
  lemma {:induction false} NextRecord(s: State, op: Op, now: int, i: nat)
    requires !op.CreateKey? && i < |s.records|
    requires forall k, l :: 0 <= k < l < |s.records| ==> s.records[k].id != s.records[l].id
    ensures var records := Next(s, op, now).records;
      && |records| == |s.records| && records[i].id == s.records[i].id
      && (!op.ValidateKey? && op.id == s.records[i].id ==> i == IndexOf(s.records, op.id))
      && (op.ValidateKey? || op.id != s.records[i].id ==> SameStanding(records[i], s.records[i]))
  {
  }

  predicate SameStanding(r: Record, q: Record) {
    && r.hash == q.hash && r.salt == q.salt && r.prefix == q.prefix && r.revokedAt == q.revokedAt
    && r.expiresAt == q.expiresAt && r.name == q.name && r.createdBy == q.createdBy && r.scopes == q.scopes
    && r.rateLimitPerMinute == q.rateLimitPerMinute
  }

  lemma NextStands(s: State, past: History, op: Op, now: int)
    requires AllStand(s, past) && !op.CreateKey?
    ensures AllStand(Next(s, op, now), past + [(op, now)])
  {
    var records := Next(s, op, now).records;
    forall i | 0 <= i < |s.records|
      ensures |records| == |s.records| && records[i].id == s.records[i].id
      ensures Stands(records[i], StandingOf(past + [(op, now)], s.records[i].id))
    {
      NextRecord(s, op, now, i);
      assert Stands(s.records[i], StandingOf(past, s.records[i].id));
      if !op.ValidateKey? && op.id == s.records[i].id {
        EditStands(s, past, op, now, i);
      } else {
        OtherStands(past, op, now, s.records[i].id);
      }
    }
  }

  lemma {:induction false} RunStands(s: State, past: History, ops: History, clock: int)
    requires AllStand(s, past) && Inv(s, clock) && Run(s, ops, clock)
    ensures AllStand(After(s, ops), past + ops)
    decreases |ops|
  {
    if ops == [] {
      assert past + [] == past;
    } else {
      var (op, now) := ops[0];
      if op.CreateKey? {
        assert !Mentioned(s.audits, op.id);
        CreateStands(s, past, op, now);
      } else {
        NextStands(s, past, op, now);
      }
      InvNext(s, op, clock, now);
      RunStands(Next(s, op, now), past + [ops[0]], ops[1..], now);
      assert past + [ops[0]] + ops[1..] == past + ops;
    }
  }

  /**
   * In any run a secret is accepted as a key only if it is the one issued last for the key, the key was not revoked
   * since and has not expired, and every required scope is among those granted when it was created.
   */
  lemma AcceptedOnlyAsIssued(ops: History, clock: int, secret: string, required: seq<string>, now: int, id: KeyId)
    requires Run(EMPTY, ops, clock) && Verify(After(EMPTY, ops), secret, required, now) == Accepted(id)
    ensures var st := StandingOf(ops, id);
      && st.Some? && st.value.secret == secret && !st.value.revoked
      && (st.value.expiry.Some? ==> now < st.value.expiry.value)
      && st.value.created.CreateKey?
      && var granted := NormalizeScopes(st.value.created.scopes);
        "*" in granted || forall scope <- required :: scope in granted
  {
    var s := After(EMPTY, ops);
    RunStands(EMPTY, [], ops, clock);
    assert [] + ops == ops;
    VerdictIff(s, secret, required, now, Accepted(id));
    var i :| 0 <= i < |s.records| && Accepts(s, i, secret, required, now) && s.records[i].id == id;
    assert Stands(s.records[i], StandingOf(ops, id));
  }

  // ---------------------------------------------------------------- the audit log

  /** The operation takes effect: its key exists, or its secret is accepted. */
  predicate Takes(s: State, op: Op, now: int) {
    match op
    case CreateKey(_, _, _, _, _, _, _, _) => true
    case ValidateKey(secret, required, _) => Verify(s, secret, required, now).Accepted?
    case _ => exists r <- s.records :: r.id == op.id
  }

  function Taken(s: State, ops: History): History
    decreases |ops|
  {
    if ops == [] then []
    else
      (if Takes(s, ops[0].0, ops[0].1) then [ops[0]] else []) + Taken(Next(s, ops[0].0, ops[0].1), ops[1..])
  }

  predicate Logs(a: Audit, c: (Op, int)) {
    a.createdAt == c.1
    && match c.0
       case CreateKey(id, name, _, _, _, _, _, createdBy) =>
         a.apiKeyId == id && a.action == Created && a.actor == createdBy && a.detail == Some(Trim(name))
       case RevokeKey(id, actor) => a.apiKeyId == id && a.action == Revoked && a.actor == actor && a.detail == None
       case RotateKey(id, actor, _, _) =>
         a.apiKeyId == id && a.action == Rotated && a.actor == actor && a.detail == None
       case ExtendKey(id, actor, days) =>
         a.apiKeyId == id && a.action == Extended && a.actor == actor && a.detail == Some(IntText(days) + " days")
       case ValidateKey(_, _, clientIp) => a.action == Used && a.detail == clientIp
  }

  predicate AllLogged(audits: seq<Audit>, taken: History) {
    |audits| == |taken| && forall k :: 0 <= k < |audits| ==> Logs(audits[k], taken[k])
  }

  lemma {:induction false} NextLogs(s: State, op: Op, now: int)
    ensures var audits := Next(s, op, now).audits;
      if Takes(s, op, now) then
        |audits| == |s.audits| + 1 && s.audits <= audits && Logs(audits[|s.audits|], (op, now))
      else audits == s.audits
  {
  }

  lemma {:induction false} StepLogs(s: State, past: History, op: Op, now: int)
    requires AllLogged(s.audits, past)
    ensures AllLogged(Next(s, op, now).audits, past + if Takes(s, op, now) then [(op, now)] else [])
  {
    NextLogs(s, op, now);
  }

  lemma {:induction false} TakenCons(s: State, past: History, ops: History, s': State, first: History)
    requires ops != [] && s' == Next(s, ops[0].0, ops[0].1)
    requires first == if Takes(s, ops[0].0, ops[0].1) then [ops[0]] else []
    ensures past + Taken(s, ops) == past + first + Taken(s', ops[1..]) && After(s, ops) == After(s', ops[1..])
  {
    assert past + (first + Taken(s', ops[1..])) == past + first + Taken(s', ops[1..]);
  }

  lemma {:induction false} RunLogs(s: State, past: History, ops: History)
    requires AllLogged(s.audits, past)
    ensures AllLogged(After(s, ops).audits, past + Taken(s, ops))
    decreases |ops|
  {
    if ops == [] {
      assert past + [] == past;
    } else {
      var first := if Takes(s, ops[0].0, ops[0].1) then [ops[0]] else [];
      StepLogs(s, past, ops[0].0, ops[0].1);
      RunLogs(Next(s, ops[0].0, ops[0].1), past + first, ops[1..]);
      TakenCons(s, past, ops, Next(s, ops[0].0, ops[0].1), first);
    }
  }

  /** The audit log of any run has one row for each operation that took effect, in order, and no other. */
  lemma {:induction false} EveryRunLogged(ops: History)
    ensures AllLogged(After(EMPTY, ops).audits, Taken(EMPTY, ops))
  {
    RunLogs(EMPTY, [], ops);
    assert [] + Taken(EMPTY, ops) == Taken(EMPTY, ops);
  }

  // ---------------------------------------------------------------- the use of a key, as its audit rows tell it

  /** Time and client of the last use since the key was created or rotated. */
  function LastUse(audits: seq<Audit>, id: KeyId): (Option<int>, Option<string>) {
    if audits == [] then (None, None)
    else
      var a := audits[|audits| - 1];
      if a.apiKeyId == id && a.action == Used then (Some(a.createdAt), a.detail)
      else if a.apiKeyId == id && (a.action == Created || a.action == Rotated) then (None, None)
      else LastUse(audits[..|audits| - 1], id)
  }

  /** Time of the last row of the key. */
  function LastRow(audits: seq<Audit>, id: KeyId): Option<int> {
    if audits == [] then None
    else if audits[|audits| - 1].apiKeyId == id then Some(audits[|audits| - 1].createdAt)
    else LastRow(audits[..|audits| - 1], id)
  }

  predicate ToldByAudits(s: State, r: Record) {
    (r.lastUsedAt, r.lastUsedIp) == LastUse(s.audits, r.id) && Some(r.updatedAt) == LastRow(s.audits, r.id)
  }

  ghost predicate AllToldByAudits(s: State) {
    && (forall i :: 0 <= i < |s.records| ==> ToldByAudits(s, s.records[i]))
    && (forall i, j :: 0 <= i < j < |s.records| ==> s.records[i].id != s.records[j].id)
  }

  lemma {:induction false} NextToldByAudits(s: State, op: Op, now: int, i: nat)
    requires i < |s.records| && ToldByAudits(s, s.records[i]) && (op.CreateKey? ==> op.id != s.records[i].id)
    requires forall k :: 0 <= k < i ==> s.records[k].id != s.records[i].id
    requires forall k :: i < k < |s.records| ==> s.records[k].id != s.records[i].id
    ensures i < |Next(s, op, now).records| && Next(s, op, now).records[i].id == s.records[i].id
    ensures ToldByAudits(Next(s, op, now), Next(s, op, now).records[i])
  {
    var s' := Next(s, op, now);
    if |s'.audits| > |s.audits| { assert s'.audits[..|s.audits|] == s.audits; }
  }

  lemma {:induction false} RowMentions(audits: seq<Audit>, id: KeyId)
    requires LastRow(audits, id).Some?
    ensures Mentioned(audits, id)
  {
    var a := audits[|audits| - 1];
    if a.apiKeyId != id {
      RowMentions(audits[..|audits| - 1], id);
      assert forall b <- audits[..|audits| - 1] :: b in audits;
    }
  }

  lemma {:induction false} StepToldByAudits(s: State, op: Op, now: int)
    requires AllToldByAudits(s) && Admissible(s, op)
    ensures AllToldByAudits(Next(s, op, now))
  {
    var s' := Next(s, op, now);
    forall i | 0 <= i < |s.records|
      ensures op.CreateKey? ==> op.id != s.records[i].id
      ensures i < |s'.records| && s'.records[i].id == s.records[i].id && ToldByAudits(s', s'.records[i])
    {
      assert ToldByAudits(s, s.records[i]);
      RowMentions(s.audits, s.records[i].id);
      NextToldByAudits(s, op, now, i);
    }
  }

  lemma {:induction false} RunToldByAudits(s: State, ops: History, clock: int)
    requires AllToldByAudits(s) && Run(s, ops, clock)
    ensures AllToldByAudits(After(s, ops))
    decreases |ops|
  {
    if ops != [] {
      StepToldByAudits(s, ops[0].0, ops[0].1);
      RunToldByAudits(Next(s, ops[0].0, ops[0].1), ops[1..], ops[0].1);
    }
  }

  /** In any run the last use and the last change of each key are those its audit rows tell; a rotation forgets uses. */
  lemma {:induction false} EveryKeyToldByAudits(ops: History, clock: int)
    requires Run(EMPTY, ops, clock)
    ensures AllToldByAudits(After(EMPTY, ops))
  {
    RunToldByAudits(EMPTY, ops, clock);
  }
}

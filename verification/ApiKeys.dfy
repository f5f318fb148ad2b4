/**
 * backend/src/services/apiKey.service.ts: API keys with a per-key fixed-window rate
 * limit. Calls are serialised and each reads the clock once.
 */
module ApiKeys {
  import opened Common
  import opened Texts

  type KeyId = string

  /** `deriveHash` as an opaque injective function of its two arguments. */
  datatype Hash = DeriveHash(apiKey: string, salt: string)

  datatype Record = Record(
    id: KeyId,
    name: string,
    prefix: string,
    hash: Hash,
    salt: string,
    scopes: seq<string>,
    rateLimitPerMinute: int,
    usageCount: nat,
    expiresAt: Option<int>,
    revokedAt: Option<int>,
    lastUsedAt: Option<int>,
    lastUsedIp: Option<string>,
    createdBy: string,
    updatedAt: int)

  datatype Action = Created | Revoked | Rotated | Extended | Used

  datatype Audit = Audit(apiKeyId: KeyId, action: Action, actor: string, detail: Option<string>, createdAt: int)

  datatype Bucket = Bucket(windowStartedAt: int, count: nat)

  /** The repository keeps insertion order, as a JavaScript Map does. */
  datatype State = State(records: seq<Record>, audits: seq<Audit>, buckets: map<KeyId, Bucket>)

  datatype Op =
    | CreateKey(id: KeyId, name: string, plaintext: string, salt: string, scopes: seq<string>,
                rateLimit: Option<real>, expiresAt: Option<int>, createdBy: string)
    | RevokeKey(id: KeyId, actor: string)
    | RotateKey(id: KeyId, actor: string, plaintext: string, salt: string)
    | ExtendKey(id: KeyId, actor: string, extraDays: int)
    | ValidateKey(plaintext: string, requiredScopes: seq<string>, clientIp: Option<string>)

  datatype Verdict = Accepted(id: KeyId) | Refused | RateLimited

  const RATE_LIMIT_WINDOW_MS := 60_000
  const DEFAULT_RATE_LIMIT_PER_MINUTE := 120
  const DEFAULT_SCOPES: seq<string> := ["jobs:read", "jobs:trigger"]
  const DAY_MS := 24 * 60 * 60 * 1000

  const EMPTY := State([], [], map[])

  function NormalizeRateLimit(limit: Option<real>): (r: int)
    ensures r >= 1
    ensures limit.Some? && limit.value >= 1.0 ==> r as real <= limit.value < r as real + 1.0
    ensures limit.None? || limit.value < 1.0 ==> r == 120
  {
    if limit == None || limit.value < 1.0 then DEFAULT_RATE_LIMIT_PER_MINUTE else limit.value.Floor
  }

  /** What a created key is granted; no scopes stand for the default ones. */
  function NormalizeScopes(scopes: seq<string>): (r: seq<string>)
    ensures Distinct(r)
    ensures scopes != [] ==> forall t :: t in r <==> t != "" && t in Trims(scopes)
    ensures scopes == [] ==> forall t :: t in r <==> t == "jobs:read" || t == "jobs:trigger"
  {
    DefaultsTrimmed();
    Unique(Trims(Asked(scopes)), NonEmpty)
  }

  lemma DefaultsTrimmed()
    ensures Trims(DEFAULT_SCOPES) == ["jobs:read", "jobs:trigger"]
  {
    NothingToTrim("jobs:read");
    NothingToTrim("jobs:trigger");
  }

  function Asked(scopes: seq<string>): seq<string> { if scopes == [] then DEFAULT_SCOPES else scopes }

  /** Granted scopes keep the order in which they were asked for. */
  lemma ScopesKeepOrder(scopes: seq<string>, i: nat, j: nat)
    requires i < j < |NormalizeScopes(scopes)|
    ensures var asked, r := Trims(Asked(scopes)), NormalizeScopes(scopes);
      r[i] in asked && r[j] in asked && FirstAt(asked, r[i]) < FirstAt(asked, r[j])
  {
    UniqueKeepsOrder(Trims(Asked(scopes)), NonEmpty, i, j);
  }

  function PrefixOf(apiKey: string): string { if |apiKey| <= 16 then apiKey else apiKey[..16] }

  predicate HasScopes(granted: seq<string>, required: seq<string>) {
    required == [] || "*" in granted || forall scope <- required :: scope in granted
  }

  predicate IsExpired(expiresAt: Option<int>, now: int) { expiresAt.Some? && expiresAt.value <= now }

  /** The record survives the filters of the candidate loop. */
  predicate Matches(r: Record, plaintext: string, now: int) {
    && r.prefix == PrefixOf(plaintext)
    && r.revokedAt == None && !IsExpired(r.expiresAt, now)
    && r.hash == DeriveHash(plaintext, r.salt)
  }

  function FirstMatch(rs: seq<Record>, plaintext: string, now: int): (i: nat)
    ensures i <= |rs|
    ensures i < |rs| ==> Matches(rs[i], plaintext, now)
    ensures forall k :: 0 <= k < i ==> !Matches(rs[k], plaintext, now)
  {
    if rs == [] || Matches(rs[0], plaintext, now) then 0 else 1 + FirstMatch(rs[1..], plaintext, now)
  }

  function IndexOf(rs: seq<Record>, id: KeyId): (i: nat)
    ensures i <= |rs|
    ensures i < |rs| ==> rs[i].id == id
    ensures forall k :: 0 <= k < i ==> rs[k].id != id
  {
    if rs == [] || rs[0].id == id then 0 else 1 + IndexOf(rs[1..], id)
  }

  // ---------------------------------------------------------------- the rate limiter

  predicate Allows(b: Option<Bucket>, limit: int, now: int) {
    b == None || now - b.value.windowStartedAt >= RATE_LIMIT_WINDOW_MS || b.value.count < limit
  }

  /** The bucket after an allowed call. */
  function Charge(b: Option<Bucket>, now: int): Bucket {
    if b == None || now - b.value.windowStartedAt >= RATE_LIMIT_WINDOW_MS then Bucket(now, 1)
    else b.value.(count := b.value.count + 1)
  }

  function BucketOf(buckets: map<KeyId, Bucket>, id: KeyId): Option<Bucket> {
    if id in buckets then Some(buckets[id]) else None
  }

  // ---------------------------------------------------------------- operations

  function NatText(n: nat): string {
    if n < 10 then [('0' as int + n) as char] else NatText(n / 10) + [('0' as int + n % 10) as char]
  }

  function IntText(n: int): string { if n < 0 then "-" + NatText(-n) else NatText(n) }

  function Logged(s: State, id: KeyId, action: Action, actor: string, detail: Option<string>, now: int): State {
    s.(audits := s.audits + [Audit(id, action, actor, detail, now)])
  }

  function Verify(s: State, plaintext: string, requiredScopes: seq<string>, now: int): Verdict {
    var i := FirstMatch(s.records, plaintext, now);
    if i == |s.records| || !HasScopes(s.records[i].scopes, requiredScopes) then Refused
    else if !Allows(BucketOf(s.buckets, s.records[i].id), s.records[i].rateLimitPerMinute, now) then RateLimited
    else Accepted(s.records[i].id)
  }

  /** The state after an accepted validation of record `i`. */
  function Use(s: State, i: nat, clientIp: Option<string>, now: int): State
    requires i < |s.records|
  {
    var r := s.records[i];
    var used := r.(usageCount := r.usageCount + 1, lastUsedAt := Some(now), lastUsedIp := clientIp, updatedAt := now);
    Logged(s.(buckets := s.buckets[r.id := Charge(BucketOf(s.buckets, r.id), now)], records := s.records[i := used]),
           r.id, Used, r.name, clientIp, now)
  }

  function WithRecord(s: State, i: nat, r: Record): State
    requires i < |s.records|
  {
    s.(records := s.records[i := r])
  }

  function NewRecord(id: KeyId, name: string, plaintext: string, salt: string, scopes: seq<string>,
                     rateLimit: Option<real>, expiresAt: Option<int>, createdBy: string, now: int): Record
  {
    Record(id, Trim(name), PrefixOf(plaintext), DeriveHash(plaintext, salt), salt, NormalizeScopes(scopes),
           NormalizeRateLimit(rateLimit), 0, expiresAt, None, None, None, createdBy, now)
  }

  /** The state after an operation at time `now`; an unknown id leaves it unchanged and reports an error. */
  function Next(s: State, op: Op, now: int): State {
    match op
    case CreateKey(id, name, plaintext, salt, scopes, rateLimit, expiresAt, createdBy) =>
      var r := NewRecord(id, name, plaintext, salt, scopes, rateLimit, expiresAt, createdBy, now);
      Logged(s.(records := s.records + [r]), id, Created, createdBy, Some(r.name), now)
    case RevokeKey(id, actor) =>
      var i := IndexOf(s.records, id);
      if i == |s.records| then s
      else Logged(WithRecord(s, i, s.records[i].(revokedAt := Some(now), updatedAt := now)),
                  id, Revoked, actor, None, now)
    case RotateKey(id, actor, plaintext, salt) =>
      var i := IndexOf(s.records, id);
      if i == |s.records| then s
      else Logged(WithRecord(s, i, s.records[i].(prefix := PrefixOf(plaintext), salt := salt,
                                                 hash := DeriveHash(plaintext, salt), revokedAt := None,
                                                 lastUsedAt := None, lastUsedIp := None, updatedAt := now)),
                  id, Rotated, actor, None, now)
    case ExtendKey(id, actor, extraDays) =>
      var i := IndexOf(s.records, id);
      if i == |s.records| then s
      else
        var base := if s.records[i].expiresAt.Some? then s.records[i].expiresAt.value else now;
        Logged(WithRecord(s, i, s.records[i].(expiresAt := Some(base + extraDays * DAY_MS), updatedAt := now)),
               id, Extended, actor, Some(IntText(extraDays) + " days"), now)
    case ValidateKey(plaintext, requiredScopes, clientIp) =>
      if Verify(s, plaintext, requiredScopes, now).Accepted?
      then Use(s, FirstMatch(s.records, plaintext, now), clientIp, now) else s
  }

  /** Key ids are random: a created id has not been used before. */
  predicate Admissible(s: State, op: Op) {
    op.CreateKey? ==> forall a <- s.audits :: a.apiKeyId != op.id
  }

  // ---------------------------------------------------------------- the accepted calls of a key

  function Uses(audits: seq<Audit>, id: KeyId): seq<int> {
    if audits == [] then []
    else
      var last := audits[|audits| - 1];
      Uses(audits[..|audits| - 1], id) + if last.apiKeyId == id && last.action == Used then [last.createdAt] else []
  }

  /** How many of the times lie in [lo, hi). */
  function CountIn(times: seq<int>, lo: int, hi: int): nat {
    if times == [] then 0
    else CountIn(times[..|times| - 1], lo, hi) + if lo <= times[|times| - 1] < hi then 1 else 0
  }
}

/** The key service as imperative code over its repository, audit log and rate-limit map. */
module ApiKeyService {
  import opened Common
  import opened ApiKeys
  import opened ApiKeyHistory

  datatype Answer = Bootstrap | Key(id: KeyId, scopes: seq<string>, rateLimitPerMinute: int) | Null | LimitExceeded

  class Service {
    const bootstrapToken: string
    var records: seq<Record>
    var audits: seq<Audit>
    var buckets: map<KeyId, Bucket>

    ghost function Now(): State
      reads this
    {
      State(records, audits, buckets)
    }

    constructor (bootstrapToken: string)
      ensures Now() == EMPTY && this.bootstrapToken == bootstrapToken
    {
      this.bootstrapToken := bootstrapToken;
      records, audits, buckets := [], [], map[];
    }

    method Log(id: KeyId, action: Action, actor: string, detail: Option<string>, now: int)
      modifies this`audits
      ensures audits == old(audits) + [Audit(id, action, actor, detail, now)]
    {
      audits := audits + [Audit(id, action, actor, detail, now)];
    }

    method Find(id: KeyId) returns (i: nat)
      ensures i == IndexOf(records, id)
    {
      i := 0;
      while i < |records| && records[i].id != id
        invariant i <= |records| && i + IndexOf(records[i..], id) == IndexOf(records, id)
      {
        i := i + 1;
      }
    }

    method CreateKey(id: KeyId, name: string, plaintext: string, salt: string, scopes: seq<string>,
                     rateLimit: Option<real>, expiresAt: Option<int>, createdBy: string, now: int)
      modifies this
      ensures Now() ==
        Next(old(Now()), ApiKeys.CreateKey(id, name, plaintext, salt, scopes, rateLimit, expiresAt, createdBy), now)
    {
      var record := NewRecord(id, name, plaintext, salt, scopes, rateLimit, expiresAt, createdBy, now);
      records := records + [record];
      Log(id, Created, createdBy, Some(record.name), now);
    }

    method RevokeKey(id: KeyId, actor: string, now: int) returns (found: bool)
      modifies this
      ensures Now() == Next(old(Now()), ApiKeys.RevokeKey(id, actor), now)
      ensures found <==> IndexOf(old(records), id) < |old(records)|
    {
      var i := Find(id);
      if i == |records| { return false; }
      var record := records[i];
      record := record.(revokedAt := Some(now));
      record := record.(updatedAt := now);
      records := records[i := record];
      Log(id, Revoked, actor, None, now);
      return true;
    }

    method RotateKey(id: KeyId, actor: string, plaintext: string, salt: string, now: int) returns (found: bool)
      modifies this
      ensures Now() == Next(old(Now()), ApiKeys.RotateKey(id, actor, plaintext, salt), now)
      ensures found <==> IndexOf(old(records), id) < |old(records)|
    {
      var i := Find(id);
      if i == |records| { return false; }
      var record := records[i];
      record := record.(prefix := PrefixOf(plaintext), salt := salt, hash := DeriveHash(plaintext, salt));
      record := record.(revokedAt := None, lastUsedAt := None, lastUsedIp := None, updatedAt := now);
      records := records[i := record];
      Log(id, Rotated, actor, None, now);
      return true;
    }

    method ExtendKey(id: KeyId, actor: string, extraDays: int, now: int) returns (found: bool)
      modifies this
      ensures Now() == Next(old(Now()), ApiKeys.ExtendKey(id, actor, extraDays), now)
      ensures found <==> IndexOf(old(records), id) < |old(records)|
    {
      var i := Find(id);
      if i == |records| { return false; }
      var base := if records[i].expiresAt.Some? then records[i].expiresAt.value else now;
      records := records[i := records[i].(expiresAt := Some(base + extraDays * 24 * 60 * 60 * 1000), updatedAt := now)];
      Log(id, Extended, actor, Some(IntText(extraDays) + " days"), now);
      return true;
    }

    method ConsumeRateLimit(id: KeyId, limit: int, now: int) returns (allowed: bool)
      modifies this`buckets
      ensures allowed <==> Allows(BucketOf(old(buckets), id), limit, now)
      ensures buckets == if allowed then old(buckets)[id := Charge(BucketOf(old(buckets), id), now)] else old(buckets)
    {
      if id !in buckets || now - buckets[id].windowStartedAt >= RATE_LIMIT_WINDOW_MS {
        buckets := buckets[id := Bucket(now, 1)];
        return true;
      }
      var bucket := buckets[id];
      if bucket.count >= limit {
        return false;
      }
      bucket := bucket.(count := bucket.count + 1);
      buckets := buckets[id := bucket];
      return true;
    }

    method RecordUse(i: nat, clientIp: Option<string>, now: int)
      requires i < |records|
      modifies this`records, this`audits
      ensures var r := old(records)[i];
        && records == old(records)[i := r.(usageCount := r.usageCount + 1, lastUsedAt := Some(now),
                                           lastUsedIp := clientIp, updatedAt := now)]
        && audits == old(audits) + [Audit(r.id, Used, r.name, clientIp, now)]
    {
      var candidate := records[i];
      candidate := candidate.(usageCount := candidate.usageCount + 1);
      candidate := candidate.(lastUsedAt := Some(now), lastUsedIp := clientIp, updatedAt := now);
      records := records[i := candidate];
      Log(candidate.id, Used, candidate.name, clientIp, now);
    }

    /** The candidate loop: the first live record whose hash matches decides. */
    method TryCandidates(plaintext: string, requiredScopes: seq<string>, clientIp: Option<string>, now: int)
      returns (answer: Answer)
      modifies this
      ensures Now() == Next(old(Now()), ApiKeys.ValidateKey(plaintext, requiredScopes, clientIp), now)
      ensures Follows(old(Now()), plaintext, requiredScopes, now, answer)
    {
      var i := 0;
      while i < |records|
        invariant i <= |records| && Now() == old(Now())
        invariant i + FirstMatch(records[i..], plaintext, now) == FirstMatch(records, plaintext, now)
      {
        var candidate := records[i];
        if candidate.prefix != PrefixOf(plaintext) || candidate.revokedAt.Some? || IsExpired(candidate.expiresAt, now)
           || candidate.hash != DeriveHash(plaintext, candidate.salt) {
          i := i + 1;
          continue;
        }
        if !HasScopes(candidate.scopes, requiredScopes) {
          return Null;
        }
        var allowed := ConsumeRateLimit(candidate.id, candidate.rateLimitPerMinute, now);
        if !allowed {
          return LimitExceeded;
        }
        RecordUse(i, clientIp, now);
        return Key(candidate.id, candidate.scopes, candidate.rateLimitPerMinute);
      }
      return Null;
    }

    /** The bootstrap token passes without a look at the keys; any other secret is answered as `Decides` says. */
    method ValidateKey(plaintext: string, requiredScopes: seq<string>, clientIp: Option<string>, now: int)
      returns (answer: Answer)
      modifies this
      ensures bootstrapToken != "" && plaintext == bootstrapToken ==> answer == Bootstrap && Now() == old(Now())
      ensures !(bootstrapToken != "" && plaintext == bootstrapToken) ==>
        && Decides(old(Now()), plaintext, requiredScopes, now, answer)
        && Now() == Next(old(Now()), ApiKeys.ValidateKey(plaintext, requiredScopes, clientIp), now)
        && (!answer.Key? ==> Now() == old(Now()))
    {
      if bootstrapToken != "" && plaintext == bootstrapToken {
        return Bootstrap;
      }
      ghost var s := Now();
      answer := TryCandidates(plaintext, requiredScopes, clientIp, now);
      FollowsDecides(s, plaintext, requiredScopes, now, answer);
    }
  }

  /** The answer reports the verdict, and the record that was found. */
  predicate Follows(s: State, secret: string, required: seq<string>, now: int, answer: Answer) {
    match Verify(s, secret, required, now)
    case Refused => answer == Null
    case RateLimited => answer == LimitExceeded
    case Accepted(id) =>
      var r := s.records[FirstMatch(s.records, secret, now)];
      answer == Key(id, r.scopes, r.rateLimitPerMinute)
  }

  /**
   * A key is answered exactly when the first record that is live and has this secret holds the scopes required and
   * is under its limit; null when there is no such record or it lacks a scope; and the limit error otherwise.
   */
  predicate Decides(s: State, secret: string, required: seq<string>, now: int, answer: Answer) {
    match answer
    case Bootstrap => false
    case Null => Answers(s, secret, required, now, Refused)
    case LimitExceeded => Answers(s, secret, required, now, RateLimited)
    case Key(id, scopes, limit) =>
      exists i :: 0 <= i < |s.records| && Accepts(s, i, secret, required, now)
        && s.records[i].id == id && s.records[i].scopes == scopes && s.records[i].rateLimitPerMinute == limit
  }

  lemma FollowsDecides(s: State, secret: string, required: seq<string>, now: int, answer: Answer)
    requires Follows(s, secret, required, now, answer)
    ensures Decides(s, secret, required, now, answer)
    ensures !answer.Key? ==> !Verify(s, secret, required, now).Accepted?
  {
    var verdict := Verify(s, secret, required, now);
    VerdictIff(s, secret, required, now, verdict);
    if verdict.Accepted? {
      var i := FirstMatch(s.records, secret, now);
      FirstLiveIff(s.records, i, secret, now);
      assert Accepts(s, i, secret, required, now);
    }
  }
}

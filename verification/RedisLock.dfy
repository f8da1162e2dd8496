/** The token lock of redis_lock_adapter.py over the modelled store. */
module RedisLock {
  import opened Wrappers
  import opened RedisModel

  /** Source of uuid4 tokens: every draw is different from all earlier ones. */
  class UuidSource {
    var next: nat

    method Draw() returns (token: nat)
      modifies this
      ensures token == old(next) && next == token + 1
    {
      token := next;
      next := next + 1;
    }
  }

  /** The lock's entry is the one its holder, with this token, made when it acquired it. */
  ghost predicate Entered(s: Store, lock: Key, token: Option<nat>, since: nat, ttl: nat) {
    token.Some? && lock in s.data && s.data[lock] == Entry(Token(token.value), Some(since + ttl))
  }

  class RedisLockAdapter {
    const redis: RedisClient
    const uuids: UuidSource

    constructor (redis: RedisClient, uuids: UuidSource)
      ensures this.redis == redis && this.uuids == uuids
    {
      this.redis, this.uuids := redis, uuids;
    }

    method Acquire(lock: Key, ttl: nat) returns (token: Option<nat>)
      modifies redis, uuids
      ensures uuids.next == old(uuids.next) + 1
      ensures redis.State() == old(redis.State()).SetNx(lock, Token(old(uuids.next)), ttl)
      ensures token == if old(redis.State()).Live(lock) then None else Some(old(uuids.next))
    {
      var drawn := uuids.Draw();
      var success := redis.SetNx(lock, Token(drawn), ttl);
      token := if success then Some(drawn) else None;
    }

    method Release(lock: Key, token: nat) returns (released: bool)
      modifies redis
      ensures redis.State() == old(redis.State()).DeleteIf(lock, Token(token))
      ensures released == old(redis.State()).Has(lock, Token(token))
    {
      released := redis.EvalDeleteIf(lock, Token(token));
    }
  }

  /** The `get` half of the release fallback, and the `delete` half that trusts it. */
  function FallbackDelete(s: Store, lock: Key, seen: Option<Value>, token: nat): Store {
    if seen == Some(Token(token)) then s.Delete(lock) else s
  }

  /**
    Between the two halves of the fallback the world may move on. Whatever the store
    has become, the delete half leaves a different holder's lock alone exactly when the
    get half did not see the caller's own token.
  */
  lemma FallbackKeepsOthersIff(before: Store, after: Store, lock: Key, mine: nat, other: nat)
    requires mine != other && after.Has(lock, Token(other))
    ensures FallbackDelete(after, lock, before.Get(lock), mine).Has(lock, Token(other))
            <==> !before.Has(lock, Token(mine))
  {
    assert before.Get(lock) == Some(Token(mine)) <==> before.Has(lock, Token(mine));
  }

  /** A run in which the fallback frees a newer holder's lock: expiry falls between its halves. */
  lemma FallbackFreesNewerHolder()
    ensures var lock := SessionLock("s");
            var before := Store(0, map[]).SetNx(lock, Token(1), 75 * SECOND);
            var taken := before.Advance(75 * SECOND).SetNx(lock, Token(2), 75 * SECOND);
            && before.Has(lock, Token(1))
            && taken.Has(lock, Token(2))
            && !FallbackDelete(taken, lock, before.Get(lock), 1).Live(lock)
            && taken.DeleteIf(lock, Token(1)).Has(lock, Token(2))
  {
  }
}

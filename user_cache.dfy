/**
 * The server's user cache: a local token → user cache whose entries expire
 * after five minutes and which never grows past 1000 entries, a user id →
 * token map, and the shared token cache behind them.
 *
 * The clock is a parameter `now` in milliseconds. The shared token cache is a
 * plain map (its own expiry is not part of this model) and the user table is
 * an input to the lookup by id. Which live entries an overfull cache evicts
 * depends on the hash map's iteration order, so the model lets it be any.
 */
module UserCache {
  import opened Common
  import opened Text

  const LOCAL_CACHE_EXPIRE_TIME: int := 5 * 60 * 1000
  const MAX_LOCAL_CACHE_SIZE: nat := 1000
  /** How far below the cap an eviction pass goes. */
  const EVICTION_SLACK: nat := 100

  datatype User = User(id: int, username: string)

  datatype CacheEntry = CacheEntry(user: User, timestamp: int)

  type Local = map<string, CacheEntry>

  predicate Expired(e: CacheEntry, now: int)
  {
    now - e.timestamp > LOCAL_CACHE_EXPIRE_TIME
  }

  /** The local cache with every expired entry removed. */
  function Purged(local: Local, now: int): (r: Local)
    ensures forall k :: k in r <==> k in local && !Expired(local[k], now)
    ensures forall k :: k in r ==> r[k] == local[k]
  {
    map k | k in local && !Expired(local[k], now) :: local[k]
  }

  /** getUserFromLocalCache: a live entry's user; an expired entry is dropped on sight. */
  function LocalLookup(local: Local, token: string, now: int): (Option<User>, Local)
  {
    if token !in local then (None, local)
    else if Expired(local[token], now) then (None, local - {token})
    else (Some(local[token].user), local)
  }

  /** A lookup never returns an expired entry, removes only the entry it found expired, and returns a live entry's user. */
  lemma LocalLookupSpec(local: Local, token: string, now: int)
    ensures var (r, after) := LocalLookup(local, token, now);
      && (r.Some? <==> token in local && !Expired(local[token], now))
      && (r.Some? ==> r.value == local[token].user)
      && (after == if token in local && Expired(local[token], now) then local - {token} else local)
  {
  }

  /** A user just stored under a token is found there until the entry is five minutes old. */
  lemma StoreThenLookup(local: Local, token: string, u: User, stored: int, now: int)
    requires now - stored <= LOCAL_CACHE_EXPIRE_TIME
    ensures LocalLookup(local[token := CacheEntry(u, stored)], token, now).0 == Some(u)
  {
  }

  /** Purging keeps exactly the live entries and is idempotent. */
  lemma PurgedIdempotent(local: Local, now: int)
    ensures Purged(Purged(local, now), now) == Purged(local, now)
    ensures forall k :: k in Purged(local, now) ==> !Expired(Purged(local, now)[k], now)
  {
  }

  lemma RemoveOneKey(m: Local, k: string)
    requires k in m
    ensures |m - {k}| == |m| - 1
  {
    assert (m - {k}).Keys == m.Keys - {k};
  }

  /**
   * What putUserToLocalCache may leave in the local cache: the token's new
   * entry, over old entries only. A cache below the cap only gains the entry;
   * a full one first loses its expired entries, and when it is still full
   * it keeps only live entries, `EVICTION_SLACK` below the cap.
   */
  predicate PutInto(before: Local, after: Local, token: string, user: User, now: int)
  {
    && token in after && after[token] == CacheEntry(user, now)
    && (forall k :: k in after && k != token ==> k in before && after[k] == before[k])
    && (|before| < MAX_LOCAL_CACHE_SIZE ==> after == before[token := CacheEntry(user, now)])
    && (|before| >= MAX_LOCAL_CACHE_SIZE && |Purged(before, now)| < MAX_LOCAL_CACHE_SIZE
        ==> after == Purged(before, now)[token := CacheEntry(user, now)])
    && (|before| >= MAX_LOCAL_CACHE_SIZE ==> forall k :: k in after && k != token ==> !Expired(after[k], now))
    && (|before| >= MAX_LOCAL_CACHE_SIZE && |Purged(before, now)| >= MAX_LOCAL_CACHE_SIZE
        ==> |after| <= MAX_LOCAL_CACHE_SIZE - EVICTION_SLACK + 1)
  }

  class UserCacheManager {
    var local: Local
    var idToToken: map<int, string>
    /** The shared token cache. */
    var poetry: map<string, User>

    ghost predicate Valid()
      reads this
    {
      |local| <= MAX_LOCAL_CACHE_SIZE
    }

    constructor ()
      ensures Valid() && local == map[] && idToToken == map[] && poetry == map[]
    {
      local := map[];
      idToToken := map[];
      poetry := map[];
    }

    method GetUserFromLocalCache(token: string, now: int) returns (u: Option<User>)
      modifies this
      ensures (u, local) == LocalLookup(old(local), token, now)
      ensures idToToken == old(idToToken) && poetry == old(poetry)
      ensures old(Valid()) ==> Valid()
    {
      if token in local {
        var entry := local[token];
        if !Expired(entry, now) {
          return Some(entry.user);
        }
        RemoveOneKey(local, token);
        local := local - {token};
      }
      u := None;
    }

    /**
     * putUserToLocalCache: a full cache first drops its expired entries; if it
     * is still full, it drops live entries until it is `EVICTION_SLACK` below
     * the cap; then the token's entry is (re)written.
     */
    method PutUserToLocalCache(token: string, user: User, now: int)
      requires Valid()
      modifies this
      ensures Valid()
      ensures PutInto(old(local), local, token, user, now)
      ensures idToToken == old(idToToken) && poetry == old(poetry)
    {
      if |local| >= MAX_LOCAL_CACHE_SIZE {
        local := Purged(local, now);
        if |local| >= MAX_LOCAL_CACHE_SIZE {
          var toRemove := |local| - MAX_LOCAL_CACHE_SIZE + EVICTION_SLACK;
          var target := |local| - toRemove;
          ghost var purged := local;
          while |local| > target
            invariant target == MAX_LOCAL_CACHE_SIZE - EVICTION_SLACK <= |local|
            invariant forall k :: k in local ==> k in purged && local[k] == purged[k]
            invariant idToToken == old(idToToken) && poetry == old(poetry)
            decreases |local|
          {
            var k :| k in local;
            RemoveOneKey(local, k);
            local := local - {k};
          }
        }
      }
      local := local[token := CacheEntry(user, now)];
    }

    /** updateUserIdToTokenMapping. */
    method UpdateUserIdToTokenMapping(userId: int, token: string)
      modifies this
      ensures local == old(local) && poetry == old(poetry)
      ensures idToToken == if HasText(Some(token)) then old(idToToken)[userId := token] else old(idToToken)
    {
      if HasText(Some(token)) {
        idToToken := idToToken[userId := token];
      }
    }

    /** getUserByToken: the local cache first, then the shared cache, which also refills the local one. */
    method GetUserByToken(token: Option<string>, now: int) returns (u: Option<User>)
      requires Valid()
      modifies this
      ensures Valid()
      ensures !HasText(token) ==> u.None? && local == old(local) && idToToken == old(idToToken)
      ensures HasText(token) && LocalLookup(old(local), token.value, now).0.Some? ==>
        u == LocalLookup(old(local), token.value, now).0 && local == old(local) && idToToken == old(idToToken)
      ensures HasText(token) && LocalLookup(old(local), token.value, now).0.None? && token.value !in poetry ==>
        u.None? && local == LocalLookup(old(local), token.value, now).1 && idToToken == old(idToToken)
      ensures HasText(token) && LocalLookup(old(local), token.value, now).0.None? && token.value in poetry ==>
        var user := poetry[token.value];
        && u == Some(user)
        && PutInto(LocalLookup(old(local), token.value, now).1, local, token.value, user, now)
        && idToToken == old(idToToken)[user.id := token.value]
      ensures u.Some? && HasText(token) ==> token.value in local && local[token.value].user == u.value
      ensures poetry == old(poetry)
    {
      if !HasText(token) {
        return None;
      }
      u := GetUserFromLocalCache(token.value, now);
      if u.Some? {
        return;
      }
      if token.value in poetry {
        var user := poetry[token.value];
        PutUserToLocalCache(token.value, user, now);
        UpdateUserIdToTokenMapping(user.id, token.value);
        return Some(user);
      }
    }

    /**
     * getUserById: the locally cached user of the token mapped to `userId`,
     * when that entry is live and really is that user; otherwise the user
     * table's answer `dbUser`, which is then cached under the mapped token.
     */
    method GetUserById(userId: Option<int>, dbUser: Option<User>, now: int) returns (u: Option<User>)
      requires Valid()
      modifies this
      ensures Valid()
      ensures userId.None? ==> u.None? && local == old(local)
      ensures userId.Some? ==>
        var token := if userId.value in old(idToToken) then Some(old(idToToken)[userId.value]) else None;
        var cached := if HasText(token) then LocalLookup(old(local), token.value, now).0 else None;
        u == if cached.Some? && cached.value.id == userId.value then cached else dbUser
      ensures userId.Some? ==>
        var token := if userId.value in old(idToToken) then Some(old(idToToken)[userId.value]) else None;
        var after := if HasText(token) then LocalLookup(old(local), token.value, now).1 else old(local);
        var hit := HasText(token) && LocalLookup(old(local), token.value, now).0.Some?
          && LocalLookup(old(local), token.value, now).0.value.id == userId.value;
        if !hit && dbUser.Some? && HasText(token) then PutInto(after, local, token.value, dbUser.value, now)
        else local == after
      ensures idToToken == old(idToToken) && poetry == old(poetry)
    {
      if userId.None? {
        return None;
      }
      var token: Option<string> := if userId.value in idToToken then Some(idToToken[userId.value]) else None;
      if HasText(token) {
        var user := GetUserFromLocalCache(token.value, now);
        if user.Some? && user.value.id == userId.value {
          return user;
        }
      }
      u := dbUser;
      if u.Some? && HasText(token) {
        PutUserToLocalCache(token.value, u.value, now);
      }
    }

    /** cacheUser: stores the user under the token in both caches and maps its id to the token. */
    method CacheUser(token: Option<string>, user: Option<User>, now: int)
      requires Valid()
      modifies this
      ensures Valid()
      ensures !HasText(token) || user.None? ==> local == old(local) && idToToken == old(idToToken) && poetry == old(poetry)
      ensures HasText(token) && user.Some? ==>
        && poetry == old(poetry)[token.value := user.value]
        && PutInto(old(local), local, token.value, user.value, now)
        && idToToken == old(idToToken)[user.value.id := token.value]
    {
      if !HasText(token) || user.None? {
        return;
      }
      poetry := poetry[token.value := user.value];
      PutUserToLocalCache(token.value, user.value, now);
      UpdateUserIdToTokenMapping(user.value.id, token.value);
    }

    /** removeUserCache: drops the token from both caches, and the id mapping of the live user it held. */
    method RemoveUserCache(token: Option<string>, now: int)
      requires Valid()
      modifies this
      ensures Valid()
      ensures !HasText(token) ==> local == old(local) && idToToken == old(idToToken) && poetry == old(poetry)
      ensures HasText(token) ==>
        var found := LocalLookup(old(local), token.value, now).0;
        && local == old(local) - {token.value}
        && poetry == old(poetry) - {token.value}
        && idToToken == if found.Some? then old(idToToken) - {found.value.id} else old(idToToken)
    {
      if !HasText(token) {
        return;
      }
      var user := GetUserFromLocalCache(token.value, now);
      poetry := poetry - {token.value};
      if token.value in local {
        RemoveOneKey(local, token.value);
      }
      local := local - {token.value};
      if user.Some? {
        idToToken := idToToken - {user.value.id};
      }
    }

    /** removeUserCacheById: forgets the id's token, then removes that token's caches. */
    method RemoveUserCacheById(userId: Option<int>, now: int)
      requires Valid()
      modifies this
      ensures Valid()
      ensures userId.None? ==> local == old(local) && idToToken == old(idToToken) && poetry == old(poetry)
      ensures userId.Some? ==> userId.value !in idToToken
      ensures userId.Some? && (userId.value !in old(idToToken) || !HasText(Some(old(idToToken)[userId.value]))) ==>
        local == old(local) && poetry == old(poetry) && idToToken == old(idToToken) - {userId.value}
      ensures userId.Some? && userId.value in old(idToToken) && HasText(Some(old(idToToken)[userId.value])) ==>
        var token := old(idToToken)[userId.value];
        var found := LocalLookup(old(local), token, now).0;
        && local == old(local) - {token}
        && poetry == old(poetry) - {token}
        && idToToken == if found.Some? then old(idToToken) - {userId.value} - {found.value.id} else old(idToToken) - {userId.value}
    {
      if userId.None? {
        return;
      }
      var token: Option<string> := if userId.value in idToToken then Some(idToToken[userId.value]) else None;
      idToToken := idToToken - {userId.value};
      if HasText(token) {
        RemoveUserCache(token, now);
      }
    }

    /** cacheUserById: re-caches the user under the token its id maps to, if any. */
    method CacheUserById(userId: Option<int>, user: Option<User>, now: int)
      requires Valid()
      modifies this
      ensures Valid()
      ensures userId.None? || user.None? || userId.value !in old(idToToken) || !HasText(Some(old(idToToken)[userId.value])) ==>
        local == old(local) && idToToken == old(idToToken) && poetry == old(poetry)
      ensures userId.Some? && user.Some? && userId.value in old(idToToken) && HasText(Some(old(idToToken)[userId.value])) ==>
        var token := old(idToToken)[userId.value];
        && PutInto(old(local), local, token, user.value, now)
        && poetry == old(poetry)[token := user.value]
        && idToToken == old(idToToken)[user.value.id := token]
    {
      if userId.Some? && user.Some? {
        var token: Option<string> := if userId.value in idToToken then Some(idToToken[userId.value]) else None;
        if HasText(token) {
          CacheUser(token, user, now);
        }
      }
    }

    /** clearAllCache: both local maps end up empty; the shared cache is left alone. */
    method ClearAllCache()
      modifies this
      ensures Valid()
      ensures local == map[] && idToToken == map[] && poetry == old(poetry)
    {
      local := map[];
      idToToken := map[];
    }
  }
}

/** The agent client's token cache (agent/pkg/client/credentials.go), as one caller at a time sees it. */
module TokenCache {
  import opened Prelude

  datatype Token = Token(accessToken: string, expiry: int)

  const LEEWAY: int := 300 * SECOND

  // The token will outlast the given time by more than the leeway.
  predicate Fresh(tok: Option<Token>, now: int) {
    tok.Some? && tok.value.expiry - LEEWAY > now
  }

  // How a call came by its answer.
  datatype How = FastHit | SlowHit | Rotated | Stale | Failed

  // The cached token and when it was stored; no time is the zero time, before all others.
  datatype Cached = Cached(tok: Option<Token>, t: Option<int>)

  datatype Answered = Answered(cached: Cached, result: Option<Token>, how: How)

  // What one undisturbed call of Token does, given what the base source would answer.
  function TokenCall(c: Cached, now: int, base: Option<Token>, storedAt: int): Answered {
    if Fresh(c.tok, now) then Answered(c, c.tok, FastHit)
    else if base.Some? then Answered(Cached(base, Some(storedAt)), base, Rotated)
    else if c.tok.None? then Answered(c, None, Failed)
    else Answered(c, c.tok, Stale)
  }

  predicate OlderThan(c: Cached, limit: int) {
    c.t.None? || c.t.value < limit
  }

  class CachingTokenSource {
    var tok: Option<Token>
    var t: Option<int>

    ghost function Contents(): Cached
      reads this
    {
      Cached(tok, t)
    }

    constructor()
      ensures Contents() == Cached(None, None)
    {
      tok, t := None, None;
    }

    method Token(now: int, base: Option<Token>, storedAt: int) returns (result: Option<Token>)
      modifies this
      ensures Contents() == TokenCall(old(Contents()), now, base, storedAt).cached
      ensures result == TokenCall(old(Contents()), now, base, storedAt).result
      ensures old(tok).Some? && old(tok).value.expiry > now + 300 * SECOND ==>
                result == old(tok) && Contents() == old(Contents())
      ensures (old(tok).Some? ==> old(tok).value.expiry <= now + 300 * SECOND) && base.Some? ==>
                result == base && Contents() == Cached(base, Some(storedAt))
      ensures base.None? ==> result == old(tok) && Contents() == old(Contents())
    {
      var cached := tok;
      if Fresh(cached, now) { return cached; }
      // the lock is taken here, and the cache looked at again
      if Fresh(tok, now) { return tok; }
      if base.None? {
        if tok.None? { return None; }
        return tok;
      }
      t := Some(storedAt);
      tok := base;
      return base;
    }

    method ResetTokenOlderThan(limit: int)
      modifies this
      ensures Contents() == if OlderThan(old(Contents()), limit) then Cached(None, None) else old(Contents())
    {
      if t.None? || t.value < limit {
        tok, t := None, None;
      }
    }
  }

  datatype CacheEntry = CacheEntry(source: CachingTokenSource, lastUsed: int)

  class ServiceAccount {
    var sources: map<string, CacheEntry>

    /** Everyone who asks for the same audience shares one source. */
    method TokenSource(audience: string, now: int) returns (source: CachingTokenSource)
      modifies this
      ensures audience in old(sources) ==> source == old(sources)[audience].source
      ensures audience !in old(sources) ==> fresh(source)
      ensures sources == old(sources)[audience := CacheEntry(source, now)]
    {
      if audience !in sources {
        source := new CachingTokenSource();
        sources := sources[audience := CacheEntry(source, now)];
      } else {
        source := sources[audience].source;
      }
      sources := sources[audience := sources[audience].(lastUsed := now)];
    }

    /** Deletes, in whatever order the map is walked, exactly the entries last used before the given time. */
    method Prune(unusedSince: int) returns (n: nat)
      modifies this
      ensures sources == map a | a in old(sources) && old(sources)[a].lastUsed >= unusedSince :: old(sources)[a]
      ensures n == |old(sources)| - |sources|
    {
      n := 0;
      var left := sources.Keys;
      while left != {}
        invariant left <= sources.Keys <= old(sources).Keys
        invariant forall a :: a in sources ==> sources[a] == old(sources)[a]
        invariant forall a :: a in old(sources) && a !in left ==>
                  (a in sources <==> old(sources)[a].lastUsed >= unusedSince)
        invariant n == |old(sources)| - |sources|
        decreases left
      {
        var audience :| audience in left;
        if sources[audience].lastUsed < unusedSince {
          sources := sources - {audience};
          n := n + 1;
        }
        left := left - {audience};
      }
    }
  }
}

/**
 Agent tokens: a cache in front of a token store, each under its own lock.

 No operation holds both locks, so an operation is a sequence of pieces between
 which any other piece may run.  Token draws are fresh: a drawn token is not in
 the store.
 */
module TokenProtocol {
  import opened Basics

  type Token = string

  datatype Entry = Entry(host: HostId, expires: Option<int>)

  datatype Verdict = Unknown | Expired | Valid(host: HostId)

  /** What an operation still has to do after its last piece. */
  datatype Op =
    | Generated(token: Token, host: HostId)
    | Missed(token: Token)
    | FoundInStore(token: Token, host: HostId)
    | RevokeUncached(token: Token)
    | AllListed(host: HostId, tokens: set<Token>)
    | AllUncached(host: HostId)

  datatype System = System(cache: map<Token, HostId>, store: map<Token, Entry>, ops: map<nat, Op>)

  const INITIAL := System(map[], map[], map[])

  datatype Piece =
    | GenerateStore(op: nat, token: Token, host: HostId, expires: Option<int>)
    | GenerateCache(op: nat)
    | ValidateProbe(op: nat, token: Token)
    | ValidateFetch(op: nat, now: int)
    | ValidateCache(op: nat)
    | RevokeCache(op: nat, token: Token)
    | RevokeStore(op: nat)
    | RevokeAllList(op: nat, host: HostId)
    | RevokeAllCache(op: nat)
    | RevokeAllStore(op: nat)
    | ClearCache

  function Fetch(store: map<Token, Entry>, t: Token, now: int): Verdict {
    if t !in store then Unknown
    else if store[t].expires.Some? && now > store[t].expires.value then Expired
    else Valid(store[t].host)
  }

  function TokensOf(store: map<Token, Entry>, h: HostId): set<Token> {
    set t | t in store && store[t].host == h
  }

  /** One piece; a piece whose operation is not at that point does nothing. */
  function Apply(s: System, p: Piece): System {
    match p
    case GenerateStore(op, t, h, expires) =>
      if op in s.ops || t in s.store then s
      else s.(store := s.store[t := Entry(h, expires)], ops := s.ops[op := Generated(t, h)])
    case GenerateCache(op) =>
      if op in s.ops && s.ops[op].Generated?
      then s.(cache := s.cache[s.ops[op].token := s.ops[op].host], ops := s.ops - {op}) else s
    case ValidateProbe(op, t) =>
      if op in s.ops || t in s.cache then s else s.(ops := s.ops[op := Missed(t)])
    case ValidateFetch(op, now) =>
      if op in s.ops && s.ops[op].Missed? then
        var t := s.ops[op].token;
        var v := Fetch(s.store, t, now);
        s.(ops := if v.Valid? then s.ops[op := FoundInStore(t, v.host)] else s.ops - {op})
      else s
    case ValidateCache(op) =>
      if op in s.ops && s.ops[op].FoundInStore?
      then s.(cache := s.cache[s.ops[op].token := s.ops[op].host], ops := s.ops - {op}) else s
    case RevokeCache(op, t) =>
      if op in s.ops then s
      else s.(cache := s.cache - {t}, ops := s.ops[op := RevokeUncached(t)])
    case RevokeStore(op) =>
      if op in s.ops && s.ops[op].RevokeUncached?
      then s.(store := s.store - {s.ops[op].token}, ops := s.ops - {op}) else s
    case RevokeAllList(op, h) =>
      if op in s.ops then s else s.(ops := s.ops[op := AllListed(h, TokensOf(s.store, h))])
    case RevokeAllCache(op) =>
      if op in s.ops && s.ops[op].AllListed?
      then s.(cache := s.cache - s.ops[op].tokens, ops := s.ops[op := AllUncached(s.ops[op].host)]) else s
    case RevokeAllStore(op) =>
      if op in s.ops && s.ops[op].AllUncached?
      then s.(store := s.store - TokensOf(s.store, s.ops[op].host), ops := s.ops - {op}) else s
    case ClearCache => s.(cache := map[])
  }

  function Run(s: System, ps: seq<Piece>): System {
    if ps == [] then s else Apply(Run(s, ps[..|ps| - 1]), ps[|ps| - 1])
  }

  // ------------------------------------------------------------------------
  // Agreement of cache and store
  // ------------------------------------------------------------------------

  ghost predicate Agree(s: System) {
    forall t :: t in s.cache ==> t in s.store && s.store[t].host == s.cache[t]
  }

  ghost predicate AgreeAt(s: System, t: Token) {
    t in s.cache ==> t in s.store && s.store[t].host == s.cache[t]
  }

  /** `use` is about to cache token `t`, which `revoke` is in the middle of revoking. */
  predicate Covers(revoke: Op, use: Op, t: Token) {
    && (use.Generated? || use.FoundInStore?)
    && use.token == t
    && (match revoke
        case RevokeUncached(k) => k == t
        case AllListed(h, _) => h == use.host
        case AllUncached(h) => h == use.host
        case _ => false)
  }

  ghost predicate Overlap(s: System, t: Token) {
    exists r, u :: r in s.ops && u in s.ops && Covers(s.ops[r], s.ops[u], t)
  }

  ghost predicate OpInvariant(s: System, op: Op, t: Token) {
    match op
    case Generated(k, h) => k == t ==> t in s.store && s.store[t].host == h
    case FoundInStore(k, h) => k == t ==> t in s.store && s.store[t].host == h
    case RevokeUncached(k) => k == t ==> t !in s.cache
    case AllListed(h, tokens) => t in s.cache && s.cache[t] == h ==> t in tokens
    case AllUncached(h) => t in s.cache ==> s.cache[t] != h
    case Missed(_) => true
  }

  /** Cache and store agree on `t`, and every operation under way fits that. */
  ghost predicate Inv(s: System, t: Token) {
    AgreeAt(s, t) && forall o :: o in s.ops ==> OpInvariant(s, s.ops[o], t)
  }

  lemma PieceKeepsInv(s: System, p: Piece, t: Token)
    requires Inv(s, t) && !Overlap(s, t)
    ensures Inv(Apply(s, p), t)
  {
    var s' := Apply(s, p);
    forall o | o in s'.ops
      ensures OpInvariant(s', s'.ops[o], t)
    {
      if o in s.ops {
        assert OpInvariant(s, s.ops[o], t);
      }
      if !p.ClearCache? && p.op in s.ops && o in s.ops {
        assert !Covers(s.ops[p.op], s.ops[o], t) && !Covers(s.ops[o], s.ops[p.op], t);
      }
    }
    assert AgreeAt(s', t) by {
      if !p.ClearCache? && p.op in s.ops {
        assert OpInvariant(s, s.ops[p.op], t);
      }
    }
  }

  /** In every run in which no validation or generation of `t` overlaps a
      revocation covering it, the cache agrees with the store on `t`, whatever
      happens to other tokens. */
  lemma {:induction false} CacheAgreesWithStore(ps: seq<Piece>, t: Token)
    requires forall k :: 0 <= k < |ps| ==> !Overlap(Run(INITIAL, ps[..k]), t)
    ensures Inv(Run(INITIAL, ps), t)
  {
    if ps != [] {
      var n := |ps| - 1;
      assert forall k :: 0 <= k < n ==> ps[..n][..k] == ps[..k];
      CacheAgreesWithStore(ps[..n], t);
      assert !Overlap(Run(INITIAL, ps[..n]), t);
      PieceKeepsInv(Run(INITIAL, ps[..n]), ps[n], t);
    }
  }

  function Finish(s: System, u: nat): Piece
    requires u in s.ops
  {
    if s.ops[u].Generated? then GenerateCache(u) else ValidateCache(u)
  }

  lemma RunTwo(s: System, p: Piece, q: Piece)
    ensures Run(s, [p, q]) == Apply(Apply(s, p), q)
  {
    assert [p, q][..1] == [p];
    assert [p][..0] == [];
    assert Run(s, [p]) == Apply(s, p);
  }

  lemma RunThree(s: System, p: Piece, q: Piece, r: Piece)
    ensures Run(s, [p, q, r]) == Apply(Apply(Apply(s, p), q), r)
  {
    assert [p, q, r][..2] == [p, q];
    RunTwo(s, p, q);
  }

  lemma LateUseBreaks(s: System, t: Token, r: nat, u: nat) returns (ps: seq<Piece>)
    requires Inv(s, t) && r in s.ops && u in s.ops && Covers(s.ops[r], s.ops[u], t) && !s.ops[r].AllListed?
    ensures !AgreeAt(Run(s, ps), t)
  {
    var p, q := Finish(s, u), if s.ops[r].RevokeUncached? then RevokeStore(r) else RevokeAllStore(r);
    ps := [p, q];
    RunTwo(s, p, q);
    assert OpInvariant(s, s.ops[u], t);
    assert Apply(s, p).ops[r] == s.ops[r];
    assert t in Run(s, ps).cache;
  }

  /** The assumption is needed at every state: from any overlap the two
      operations can finish so that the revoked token stays cached. */
  lemma OverlapCanBreak(s: System, t: Token) returns (ps: seq<Piece>)
    requires Inv(s, t) && Overlap(s, t)
    ensures !AgreeAt(Run(s, ps), t)
  {
    var r, u :| r in s.ops && u in s.ops && Covers(s.ops[r], s.ops[u], t);
    if !s.ops[r].AllListed? {
      ps := LateUseBreaks(s, t, r, u);
    } else {
      ps := [RevokeAllCache(r), Finish(s, u), RevokeAllStore(r)];
      RunThree(s, ps[0], ps[1], ps[2]);
      assert OpInvariant(s, s.ops[u], t);
      assert t in Run(s, ps).cache;
    }
  }

  // ------------------------------------------------------------------------
  // What validation answers
  // ------------------------------------------------------------------------

  /** The answer of a validation that runs undisturbed. */
  function Validate(s: System, t: Token, now: int): Verdict {
    if t in s.cache then Valid(s.cache[t]) else Fetch(s.store, t, now)
  }

  /** The token is stored with an expiry strictly before `now`. */
  predicate PastExpiry(store: map<Token, Entry>, t: Token, now: int) {
    t in store && store[t].expires.Some? && store[t].expires.value < now
  }

  /** What the store answers, from its entry and the clock. */
  lemma FetchIff(store: map<Token, Entry>, t: Token, now: int, h: HostId)
    ensures Fetch(store, t, now) == Unknown <==> t !in store
    ensures Fetch(store, t, now) == Expired <==> PastExpiry(store, t, now)
    ensures Fetch(store, t, now) == Valid(h) <==>
            t in store && store[t].host == h && (store[t].expires.None? || now <= store[t].expires.value)
  {
  }

  /** Validation differs from the store's own answer exactly for a cached token
      past its expiry, which it still accepts for the right host.  So a token is
      accepted for a host exactly when it is stored for it and is cached or not past
      its expiry. */
  lemma ValidateAgrees(s: System, t: Token, now: int, h: HostId)
    requires AgreeAt(s, t)
    ensures Validate(s, t, now) == Fetch(s.store, t, now) <==> !(t in s.cache && PastExpiry(s.store, t, now))
    ensures Validate(s, t, now) == Valid(h) <==>
            t in s.store && s.store[t].host == h && (t in s.cache || !PastExpiry(s.store, t, now))
    ensures Validate(s, t, now) == Expired <==> t !in s.cache && PastExpiry(s.store, t, now)
    ensures Validate(s, t, now) == Unknown <==> t !in s.store
  {
    FetchIff(s.store, t, now, h);
  }

  /** The token is past its expiry at time `since`, if it is stored at all; it is
      not cached and nothing is about to cache it. */
  ghost predicate Lapsed(s: System, t: Token, since: int) {
    && t !in s.cache
    && (t in s.store ==> PastExpiry(s.store, t, since))
    && (forall o :: o in s.ops && (s.ops[o].Generated? || s.ops[o].FoundInStore?) ==> s.ops[o].token != t)
  }

  lemma LapsedStep(s: System, t: Token, since: int, p: Piece)
    requires Lapsed(s, t, since)
    requires p.GenerateStore? ==> p.token != t
    requires p.ValidateFetch? ==> since <= p.now
    ensures Lapsed(Apply(s, p), t, since)
  {
    if p.ValidateFetch? && p.op in s.ops && s.ops[p.op].Missed? && s.ops[p.op].token == t {
      assert !Fetch(s.store, t, p.now).Valid?;
    }
  }

  /** An expired token that is not cached is refused at every later time, whatever
      runs in the meantime, until it is generated anew. */
  lemma {:induction false} ExpiredStaysRefused(s: System, t: Token, since: int, ps: seq<Piece>, now: int)
    requires Lapsed(s, t, since) && since <= now
    requires forall k :: 0 <= k < |ps| && ps[k].GenerateStore? ==> ps[k].token != t
    requires forall k :: 0 <= k < |ps| && ps[k].ValidateFetch? ==> since <= ps[k].now
    ensures Lapsed(Run(s, ps), t, since)
    ensures Validate(Run(s, ps), t, now) == if t in Run(s, ps).store then Expired else Unknown
  {
    if ps != [] {
      ExpiredStaysRefused(s, t, since, ps[..|ps| - 1], now);
      LapsedStep(Run(s, ps[..|ps| - 1]), t, since, ps[|ps| - 1]);
    }
  }

  /** A piece that takes the token out of the cache. */
  predicate Uncaches(s: System, p: Piece, t: Token) {
    match p
    case RevokeCache(op, k) => op !in s.ops && k == t
    case RevokeAllCache(op) => op in s.ops && s.ops[op].AllListed? && t in s.ops[op].tokens
    case ClearCache => true
    case _ => false
  }

  lemma CachedStep(s: System, t: Token, p: Piece)
    requires t in s.cache && !Uncaches(s, p, t)
    ensures t in Apply(s, p).cache
  {
  }

  ghost predicate NeverUncached(s: System, ps: seq<Piece>, t: Token) {
    ps == []
    || (NeverUncached(s, ps[..|ps| - 1], t) && !Uncaches(Run(s, ps[..|ps| - 1]), ps[|ps| - 1], t))
  }

  /** Whereas a cached one is accepted at every time, however long past its expiry,
      until a revocation or the clearing of the cache reaches it. */
  lemma {:induction false} CachedStaysAccepted(s: System, t: Token, ps: seq<Piece>, now: int)
    requires t in s.cache && NeverUncached(s, ps, t)
    ensures t in Run(s, ps).cache && Validate(Run(s, ps), t, now).Valid?
  {
    if ps != [] {
      CachedStaysAccepted(s, t, ps[..|ps| - 1], now);
      CachedStep(Run(s, ps[..|ps| - 1]), t, ps[|ps| - 1]);
    }
  }

  /** Nothing remembers the token and nothing is about to. */
  ghost predicate Forgotten(s: System, t: Token) {
    && t !in s.cache
    && t !in s.store
    && (forall o :: o in s.ops && (s.ops[o].Generated? || s.ops[o].FoundInStore?) ==> s.ops[o].token != t)
  }

  lemma {:induction false} ForgottenLasts(s: System, t: Token, ps: seq<Piece>)
    requires Forgotten(s, t)
    requires forall k :: 0 <= k < |ps| && ps[k].GenerateStore? ==> ps[k].token != t
    ensures Forgotten(Run(s, ps), t)
  {
    if ps != [] {
      ForgottenLasts(s, t, ps[..|ps| - 1]);
      var mid := Run(s, ps[..|ps| - 1]);
      if ps[|ps| - 1].ValidateFetch? && ps[|ps| - 1].op in mid.ops && mid.ops[ps[|ps| - 1].op].Missed? {
        assert mid.ops[ps[|ps| - 1].op].token == t ==> Fetch(mid.store, t, ps[|ps| - 1].now) == Unknown;
      }
    }
  }

  /** Completing a revocation that nothing overlaps leaves no trace of its token. */
  lemma RevocationForgets(s: System, op: nat, t: Token)
    requires Inv(s, t) && !Overlap(s, t) && op in s.ops && s.ops[op] == RevokeUncached(t)
    ensures Forgotten(Apply(s, RevokeStore(op)), t)
  {
    assert OpInvariant(s, s.ops[op], t);
    forall o | o in s.ops && (s.ops[o].Generated? || s.ops[o].FoundInStore?)
      ensures s.ops[o].token != t
    {
      assert !Covers(s.ops[op], s.ops[o], t);
    }
  }

  lemma RevocationOfAllForgets(s: System, op: nat, h: HostId, t: Token)
    requires Inv(s, t) && !Overlap(s, t) && op in s.ops && s.ops[op] == AllUncached(h)
    requires t in TokensOf(s.store, h)
    ensures Forgotten(Apply(s, RevokeAllStore(op)), t)
  {
    assert OpInvariant(s, s.ops[op], t);
    forall o | o in s.ops && (s.ops[o].Generated? || s.ops[o].FoundInStore?)
      ensures s.ops[o].token != t
    {
      assert !Covers(s.ops[op], s.ops[o], t);
      assert OpInvariant(s, s.ops[o], t);
    }
  }

  /** No validation or generation of `t` has overlapped a revocation covering it. */
  ghost predicate NeverOverlapped(past: seq<Piece>, t: Token) {
    forall k :: 0 <= k <= |past| ==> !Overlap(Run(INITIAL, past[..k]), t)
  }

  /** A revoked (or rotated-out) token never validates again, whatever runs
      afterwards, until it is generated anew. */
  lemma RevokedStaysRevoked(past: seq<Piece>, op: nat, t: Token, next: seq<Piece>, now: int)
    requires NeverOverlapped(past, t)
    requires op in Run(INITIAL, past).ops && Run(INITIAL, past).ops[op] == RevokeUncached(t)
    requires forall k :: 0 <= k < |next| && next[k].GenerateStore? ==> next[k].token != t
    ensures Validate(Run(Apply(Run(INITIAL, past), RevokeStore(op)), next), t, now) == Unknown
  {
    assert past[..|past|] == past;
    CacheAgreesWithStore(past, t);
    RevocationForgets(Run(INITIAL, past), op, t);
    ForgottenLasts(Apply(Run(INITIAL, past), RevokeStore(op)), t, next);
  }

  /** Likewise for every token of a host whose tokens are all revoked. */
  lemma RevokedAllStayRevoked(past: seq<Piece>, op: nat, h: HostId, t: Token, next: seq<Piece>, now: int)
    requires NeverOverlapped(past, t)
    requires op in Run(INITIAL, past).ops && Run(INITIAL, past).ops[op] == AllUncached(h)
    requires t in TokensOf(Run(INITIAL, past).store, h)
    requires forall k :: 0 <= k < |next| && next[k].GenerateStore? ==> next[k].token != t
    ensures Validate(Run(Apply(Run(INITIAL, past), RevokeAllStore(op)), next), t, now) == Unknown
  {
    assert past[..|past|] == past;
    CacheAgreesWithStore(past, t);
    RevocationOfAllForgets(Run(INITIAL, past), op, h, t);
    ForgottenLasts(Apply(Run(INITIAL, past), RevokeAllStore(op)), t, next);
  }
}

/**
 The two objects behind the protocol.  A call that nothing interrupts performs
 its pieces one after the other.
 */
module TokenService {
  import opened Basics
  import opened TokenProtocol

  /** All tokens of a host are revoked with nothing else under way. */
  lemma RevokedAll(s: System, host: HostId)
    requires s.ops == map[]
    ensures var gone := TokensOf(s.store, host);
            Run(s, [RevokeAllList(0, host), RevokeAllCache(0), RevokeAllStore(0)]) ==
            System(s.cache - gone, s.store - gone, map[])
  {
    RunThree(s, RevokeAllList(0, host), RevokeAllCache(0), RevokeAllStore(0));
  }

  class MemoryTokenStore {
    var tokens: map<Token, Entry>

    constructor ()
      ensures tokens == map[]
    {
      tokens := map[];
    }

    method StoreToken(host: HostId, token: Token, expires: Option<int>)
      modifies this
      ensures tokens == old(tokens)[token := Entry(host, expires)]
    {
      tokens := tokens[token := Entry(host, expires)];
    }

    method GetHostByToken(token: Token, now: int) returns (v: Verdict)
      ensures v == Fetch(tokens, token, now)
      ensures v == Unknown <==> token !in tokens
      ensures v == Expired <==> PastExpiry(tokens, token, now)
      ensures v.Valid? ==> v.host == tokens[token].host
    {
      if token !in tokens {
        return Unknown;
      }
      var t := tokens[token];
      if t.expires.Some? && now > t.expires.value {
        return Expired;
      }
      v := Valid(t.host);
    }

    method RevokeToken(token: Token)
      modifies this
      ensures tokens == old(tokens) - {token}
    {
      tokens := tokens - {token};
    }

    method RevokeAllForHost(host: HostId)
      modifies this
      ensures tokens == old(tokens) - TokensOf(old(tokens), host)
      ensures forall t :: t in tokens <==> t in old(tokens) && old(tokens)[t].host != host
    {
      ghost var before := tokens;
      var todo := tokens.Keys;
      while todo != {}
        invariant todo <= before.Keys
        invariant tokens == before - (TokensOf(before, host) - todo)
        decreases todo
      {
        var t :| t in todo;
        if tokens[t].host == host {
          tokens := tokens - {t};
        }
        todo := todo - {t};
      }
      assert TokensOf(before, host) - todo == TokensOf(before, host);
    }

    method ListTokensForHost(host: HostId) returns (result: seq<Token>)
      ensures (set t | t in result) == TokensOf(tokens, host)
      ensures forall t :: t in result <==> t in tokens && tokens[t].host == host
    {
      result := [];
      var todo := tokens.Keys;
      while todo != {}
        invariant todo <= tokens.Keys
        invariant forall t :: t in result <==> t in tokens.Keys - todo && tokens[t].host == host
        decreases todo
      {
        var t :| t in todo;
        if tokens[t].host == host {
          result := result + [t];
        }
        todo := todo - {t};
      }
    }
  }

  class RegistrationService {
    const tokenStore: MemoryTokenStore
    var tokenCache: map<Token, HostId>

    ghost function Quiet(): System
      reads this, tokenStore
    {
      System(tokenCache, tokenStore.tokens, map[])
    }

    constructor (tokenStore: MemoryTokenStore)
      ensures this.tokenStore == tokenStore && tokenCache == map[]
    {
      this.tokenStore := tokenStore;
      tokenCache := map[];
    }

    method GenerateToken(host: HostId, drawn: Token, expires: Option<int>)
      requires drawn !in tokenStore.tokens
      modifies this, tokenStore
      ensures Quiet() == Run(old(Quiet()), [GenerateStore(0, drawn, host, expires), GenerateCache(0)])
      ensures Quiet() ==
              System(old(tokenCache)[drawn := host], old(tokenStore.tokens)[drawn := Entry(host, expires)], map[])
      ensures old(Agree(Quiet())) ==> Agree(Quiet())
      ensures forall now :: Validate(Quiet(), drawn, now) == Valid(host)
    {
      tokenStore.StoreToken(host, drawn, expires);
      tokenCache := tokenCache[drawn := host];
      RunTwo(old(Quiet()), GenerateStore(0, drawn, host, expires), GenerateCache(0));
    }

    method ValidateToken(token: Token, now: int) returns (v: Verdict)
      modifies this
      ensures Quiet() == Run(old(Quiet()), [ValidateProbe(0, token), ValidateFetch(0, now), ValidateCache(0)])
      ensures v == Validate(old(Quiet()), token, now)
      ensures token in old(tokenCache) ==> v == Valid(old(tokenCache)[token])
      ensures token !in old(tokenCache) ==>
                && (v == Unknown <==> token !in tokenStore.tokens)
                && (v == Expired <==> PastExpiry(tokenStore.tokens, token, now))
      ensures tokenCache == if v.Valid? then old(tokenCache)[token := v.host] else old(tokenCache)
      ensures old(Agree(Quiet())) ==> Agree(Quiet())
    {
      RunThree(Quiet(), ValidateProbe(0, token), ValidateFetch(0, now), ValidateCache(0));
      if token in tokenCache {
        return Valid(tokenCache[token]);
      }
      v := tokenStore.GetHostByToken(token, now);
      if v.Valid? {
        tokenCache := tokenCache[token := v.host];
      }
    }

    method RevokeToken(token: Token)
      modifies this, tokenStore
      ensures Quiet() == Run(old(Quiet()), [RevokeCache(0, token), RevokeStore(0)])
      ensures Quiet() == System(old(tokenCache) - {token}, old(tokenStore.tokens) - {token}, map[])
      ensures old(Agree(Quiet())) ==> Agree(Quiet())
      ensures Forgotten(Quiet(), token)
    {
      tokenCache := tokenCache - {token};
      tokenStore.RevokeToken(token);
      RunTwo(old(Quiet()), RevokeCache(0, token), RevokeStore(0));
    }

    method Uncache(tokens: seq<Token>)
      modifies this
      ensures tokenCache == old(tokenCache) - (set t | t in tokens)
    {
      var i := 0;
      while i < |tokens|
        invariant 0 <= i <= |tokens|
        invariant tokenCache == old(tokenCache) - (set t | t in tokens[..i])
      {
        ghost var done := tokens[..i + 1];
        assert (set t | t in done) == (set t | t in tokens[..i]) + {tokens[i]};
        tokenCache := tokenCache - {tokens[i]};
        i := i + 1;
      }
      assert tokens[..i] == tokens;
    }

    method RevokeAllTokens(host: HostId)
      modifies this, tokenStore
      ensures Quiet() == Run(old(Quiet()), [RevokeAllList(0, host), RevokeAllCache(0), RevokeAllStore(0)])
      ensures old(Agree(Quiet())) ==>
                && Agree(Quiet())
                && forall t :: t in old(TokensOf(tokenStore.tokens, host)) ==> Forgotten(Quiet(), t)
      ensures forall t :: t in tokenStore.tokens <==>
                t in old(tokenStore.tokens) && old(tokenStore.tokens)[t].host != host
      ensures forall t, now :: t !in old(tokenStore.tokens) || old(tokenStore.tokens)[t].host != host ==>
                Validate(Quiet(), t, now) == Validate(old(Quiet()), t, now)
    {
      ghost var before := Quiet();
      var tokens := tokenStore.ListTokensForHost(host);
      Uncache(tokens);
      tokenStore.RevokeAllForHost(host);
      RevokedAll(before, host);
    }

    /** The new token is generated before the old one is revoked. */
    method RotateToken(host: HostId, oldToken: Token, drawn: Token, expires: Option<int>)
      requires drawn !in tokenStore.tokens
      modifies this, tokenStore
      ensures old(Agree(Quiet())) ==> Agree(Quiet())
      ensures Forgotten(Quiet(), oldToken)
      ensures oldToken != drawn ==> forall now :: Validate(Quiet(), drawn, now) == Valid(host)
      ensures forall t, now :: t != drawn && t != oldToken ==>
                Validate(Quiet(), t, now) == Validate(old(Quiet()), t, now)
    {
      GenerateToken(host, drawn, expires);
      RevokeToken(oldToken);
    }

    method ClearAll()
      modifies this
      ensures Quiet() == Apply(old(Quiet()), ClearCache)
      ensures tokenCache == map[] && tokenStore.tokens == old(tokenStore.tokens)
      ensures Agree(Quiet())
    {
      tokenCache := map[];
    }
  }
}

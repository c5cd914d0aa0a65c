/**
  The lazily pruned idempotency-key cache of the tool-call hook chain
  (dressage/proxy/tool_call_hooks.py), compared with a store that never prunes.
 */
module HookKeys {
  import opened Wrappers

  const PruneInterval: real := 300.0

  predicate Expired(ttl: Option<real>, claimedAt: real, now: real) {
    ttl.Some? && now - claimedAt >= ttl.value
  }

  // ------------------------------------------------- the never-pruning store

  type Claims = map<(string, string), real>

  datatype Op = Claim(session: string, key: string, now: real) | Purge(session: string)

  predicate Fresh(ttl: Option<real>, claims: Claims, session: string, key: string, now: real) {
    key == "" || (session, key) !in claims || Expired(ttl, claims[(session, key)], now)
  }

  function Apply(ttl: Option<real>, claims: Claims, op: Op): Claims {
    match op
    case Claim(session, key, now) =>
      if key != "" && Fresh(ttl, claims, session, key, now) then claims[(session, key) := now] else claims
    case Purge(session) => map id | id in claims && id.0 != session :: claims[id]
  }

  function Answer(ttl: Option<real>, claims: Claims, op: Op): bool {
    op.Claim? && Fresh(ttl, claims, op.session, op.key, op.now)
  }

  function ClaimsAfter(ttl: Option<real>, ops: seq<Op>): Claims {
    if ops == [] then map[] else Apply(ttl, ClaimsAfter(ttl, ops[..|ops| - 1]), ops[|ops| - 1])
  }

  /** The answer the never-pruning store gives to operation i. */
  predicate Answered(ttl: Option<real>, ops: seq<Op>, i: nat)
    requires i < |ops|
  {
    Answer(ttl, ClaimsAfter(ttl, ops[..i]), ops[i])
  }

  /** Time never runs backwards. */
  predicate Monotone(ops: seq<Op>) {
    forall i, j | 0 <= i < j < |ops| && ops[i].Claim? && ops[j].Claim? :: ops[i].now <= ops[j].now
  }

  // ------------------------------------------------------- nested dictionaries

  type Seen = map<string, map<string, real>>

  predicate Has(seen: Seen, session: string, key: string) {
    session in seen && key in seen[session]
  }

  /** `after` is `before` less some keys, all of them expired at `now`. */
  ghost predicate PrunedTo(ttl: Option<real>, before: Seen, after: Seen, now: real) {
    && (forall s, k | Has(after, s, k) :: Has(before, s, k) && after[s][k] == before[s][k])
    && (forall s, k | Has(before, s, k) && !Has(after, s, k) :: Expired(ttl, before[s][k], now))
  }

  /** Everything cached is in the reference store; what the cache lost has expired by `clock`. */
  ghost predicate Simulates(ttl: Option<real>, seen: Seen, claims: Claims, clock: real) {
    && (forall s, k | Has(seen, s, k) :: (s, k) in claims && claims[(s, k)] == seen[s][k])
    && (forall s, k | (s, k) in claims && !Has(seen, s, k) :: Expired(ttl, claims[(s, k)], clock))
  }

  lemma PruningIsInvisible(ttl: Option<real>, before: Seen, after: Seen, claims: Claims, clock: real, now: real)
    requires Simulates(ttl, before, claims, clock) && clock <= now
    requires PrunedTo(ttl, before, after, now)
    ensures Simulates(ttl, after, claims, now)
  {
    forall s, k | (s, k) in claims && !Has(after, s, k) ensures Expired(ttl, claims[(s, k)], now) {
      if Has(before, s, k) {
        assert Expired(ttl, before[s][k], now);
      } else {
        assert Expired(ttl, claims[(s, k)], clock);
      }
    }
  }

  lemma ClaimAppended(ttl: Option<real>, ops: seq<Op>, session: string, key: string, now: real, clock: real)
    requires Monotone(ops) && clock <= now && forall i | 0 <= i < |ops| && ops[i].Claim? :: ops[i].now <= clock
    ensures var ops' := ops + [Claim(session, key, now)]; var claims := ClaimsAfter(ttl, ops);
            && Monotone(ops') && (forall i | 0 <= i < |ops'| && ops'[i].Claim? :: ops'[i].now <= now)
            && ClaimsAfter(ttl, ops') == Apply(ttl, claims, Claim(session, key, now))
            && Answered(ttl, ops', |ops|) == Fresh(ttl, claims, session, key, now)
  {
    assert (ops + [Claim(session, key, now)])[..|ops|] == ops;
  }

  class HookChain {
    const ttl: Option<real>
    /** How many keys one prune round may look at (10 000 in the source). */
    const scanBudget: nat
    var seenKeys: Seen
    var lastPrune: real
    ghost var ops: seq<Op>
    ghost var clock: real

    ghost predicate Valid()
      reads this
    {
      && Monotone(ops)
      && (forall i | 0 <= i < |ops| && ops[i].Claim? :: ops[i].now <= clock)
      && Simulates(ttl, seenKeys, ClaimsAfter(ttl, ops), clock)
    }

    constructor (ttl: Option<real>, scanBudget: nat, now: real)
      ensures Valid() && ops == [] && clock == now
      ensures this.ttl == ttl && this.scanBudget == scanBudget
    {
      this.ttl := ttl;
      this.scanBudget := scanBudget;
      seenKeys := map[];
      lastPrune := now;
      ops := [];
      clock := now;
    }

    /** Scan one session's keys, in any order, until the round's budget is spent. */
    method PruneSession(keys: map<string, real>, now: real, scanned: nat)
      returns (kept: map<string, real>, scanned': nat)
      ensures forall k | k in kept :: k in keys && kept[k] == keys[k]
      ensures forall k | k in keys && k !in kept :: Expired(ttl, keys[k], now)
    {
      kept, scanned' := keys, scanned;
      var pending := keys.Keys;
      while pending != {} && scanned' < scanBudget
        invariant pending <= keys.Keys
        invariant forall k | k in kept :: k in keys && kept[k] == keys[k]
        invariant forall k | k in keys && k !in kept :: Expired(ttl, keys[k], now)
        decreases |pending|
      {
        var key :| key in pending;
        pending := pending - {key};
        scanned' := scanned' + 1;
        if Expired(ttl, keys[key], now) {
          kept := kept - {key};
        }
      }
    }

    method MaybePrune(now: real)
      modifies this`seenKeys, this`lastPrune
      ensures PrunedTo(ttl, old(seenKeys), seenKeys, now)
      ensures ttl.None? || now - old(lastPrune) < PruneInterval ==> unchanged(this)
    {
      if ttl.None? || now - lastPrune < PruneInterval {
        return;
      }
      lastPrune := now;
      var scanned: nat := 0;
      var sessions := seenKeys.Keys;
      while sessions != {} && scanned < scanBudget
        invariant sessions <= seenKeys.Keys
        invariant PrunedTo(ttl, old(seenKeys), seenKeys, now)
        decreases |sessions|
      {
        var session :| session in sessions;
        sessions := sessions - {session};
        var kept;
        kept, scanned := PruneSession(seenKeys[session], now, scanned);
        ReplaceSession(seenKeys, session, kept, now);
        PrunedTwice(old(seenKeys), seenKeys, Replaced(seenKeys, session, kept), now);
        seenKeys := if kept == map[] then seenKeys - {session} else seenKeys[session := kept];
      }
    }

    ghost function Replaced(seen: Seen, session: string, kept: map<string, real>): Seen {
      if kept == map[] then seen - {session} else seen[session := kept]
    }

    lemma ReplaceSession(seen: Seen, session: string, kept: map<string, real>, now: real)
      requires session in seen
      requires forall k | k in kept :: k in seen[session] && kept[k] == seen[session][k]
      requires forall k | k in seen[session] && k !in kept :: Expired(ttl, seen[session][k], now)
      ensures PrunedTo(ttl, seen, Replaced(seen, session, kept), now)
    {
    }

    lemma PrunedTwice(a: Seen, b: Seen, c: Seen, now: real)
      requires PrunedTo(ttl, a, b, now) && PrunedTo(ttl, b, c, now)
      ensures PrunedTo(ttl, a, c, now)
    {
      forall s, k | Has(a, s, k) && !Has(c, s, k) ensures Expired(ttl, a[s][k], now) {
        if Has(b, s, k) {
          assert Expired(ttl, b[s][k], now);
        }
      }
    }

    /** Claims answer exactly as the never-pruning store does, whatever was pruned before. */
    method ClaimIdempotency(session: string, key: string, now: real) returns (granted: bool)
      requires Valid() && clock <= now
      modifies this
      ensures Valid()
      ensures ops == old(ops) + [Claim(session, key, now)] && clock == now
      ensures granted == Answered(ttl, ops, |ops| - 1)
    {
      ghost var claims := ClaimsAfter(ttl, ops);
      ClaimAppended(ttl, ops, session, key, now, clock);
      ops := ops + [Claim(session, key, now)];
      if key == "" {
        PruningIsInvisible(ttl, seenKeys, seenKeys, claims, clock, now);
        clock := now;
        return true;
      }
      MaybePrune(now);
      PruningIsInvisible(ttl, old(seenKeys), seenKeys, claims, clock, now);
      clock := now;
      granted := CheckAndRecord(session, key, now, claims);
    }

    /** The lookup after pruning, against the reference store `claims`. */
    method CheckAndRecord(session: string, key: string, now: real, ghost claims: Claims) returns (granted: bool)
      requires Simulates(ttl, seenKeys, claims, now) && key != ""
      modifies this`seenKeys
      ensures granted == Fresh(ttl, claims, session, key, now)
      ensures Simulates(ttl, seenKeys, Apply(ttl, claims, Claim(session, key, now)), now)
    {
      var keys := if session in seenKeys then seenKeys[session] else map[];
      if key in keys && !Expired(ttl, keys[key], now) {
        assert Has(seenKeys, session, key);
        return false;
      }
      ClaimRecorded(ttl, seenKeys, claims, session, key, now);
      seenKeys := seenKeys[session := keys[key := now]];
      return true;
    }

    /** Finalizing or discarding a session forgets its keys. */
    method PurgeSession(session: string) returns (count: nat)
      requires Valid()
      modifies this
      ensures Valid()
      ensures ops == old(ops) + [Purge(session)] && clock == old(clock)
      ensures count == if session in old(seenKeys) then |old(seenKeys)[session]| else 0
    {
      assert (ops + [Purge(session)])[..|ops|] == ops;
      ops := ops + [Purge(session)];
      count := if session in seenKeys then |seenKeys[session]| else 0;
      seenKeys := seenKeys - {session};
    }
  }

  lemma ClaimRecorded(ttl: Option<real>, seen: Seen, claims: Claims, session: string, key: string, now: real)
    requires Simulates(ttl, seen, claims, now) && key != ""
    requires !Has(seen, session, key) || Expired(ttl, seen[session][key], now)
    ensures Fresh(ttl, claims, session, key, now)
    ensures var keys := if session in seen then seen[session] else map[];
            Simulates(ttl, seen[session := keys[key := now]], claims[(session, key) := now], now)
  {
    var keys := if session in seen then seen[session] else map[];
    var seen', claims' := seen[session := keys[key := now]], claims[(session, key) := now];
    forall s, k | (s, k) in claims' && !Has(seen', s, k) ensures Expired(ttl, claims'[(s, k)], now) {
      assert !Has(seen, s, k);
    }
  }

  // ---------------------------------------------------------------- whole runs

  /** Claim i granted (session, key) and nothing purged the session before position j. */
  ghost predicate GrantedBefore(ttl: Option<real>, ops: seq<Op>, i: nat, j: nat, session: string, key: string)
    requires i < j <= |ops|
  {
    && ops[i].Claim? && ops[i].session == session && ops[i].key == key
    && Answered(ttl, ops, i)
    && forall p | i < p < j :: ops[p] != Purge(session)
  }

  /** The store holds a key exactly when some unpurged grant of it exists; the time is the latest such grant's. */
  ghost predicate HeldSinceLatest(ttl: Option<real>, ops: seq<Op>, session: string, key: string) {
    HeldSinceSome(ttl, ops, session, key) && NoLaterGrant(ttl, ops, session, key)
  }

  ghost predicate HeldSinceSome(ttl: Option<real>, ops: seq<Op>, session: string, key: string) {
    var claims := ClaimsAfter(ttl, ops);
    (session, key) in claims ==>
      exists i | 0 <= i < |ops| ::
        GrantedBefore(ttl, ops, i, |ops|, session, key) && ops[i].now == claims[(session, key)]
  }

  ghost predicate NoLaterGrant(ttl: Option<real>, ops: seq<Op>, session: string, key: string) {
    var claims := ClaimsAfter(ttl, ops);
    forall i | 0 <= i < |ops| && GrantedBefore(ttl, ops, i, |ops|, session, key) ::
      (session, key) in claims && ops[i].now <= claims[(session, key)]
  }

  lemma {:induction false} HeldSinceLatestGrant(ttl: Option<real>, ops: seq<Op>, session: string, key: string)
    requires Monotone(ops) && key != ""
    ensures HeldSinceLatest(ttl, ops, session, key)
  {
    if ops != [] {
      HeldSinceLatestGrant(ttl, ops[..|ops| - 1], session, key);
      if GrantsNow(ttl, ops, session, key) {
        NowIsLatest(ttl, ops, session, key);
      } else {
        LatestStays(ttl, ops, session, key);
      }
    }
  }

  /** The newest operation grants the key. */
  ghost predicate GrantsNow(ttl: Option<real>, ops: seq<Op>, session: string, key: string)
    requires ops != []
  {
    var n := |ops| - 1;
    ops[n].Claim? && ops[n].session == session && ops[n].key == key && Answered(ttl, ops, n)
  }

  lemma NowIsLatest(ttl: Option<real>, ops: seq<Op>, session: string, key: string)
    requires ops != [] && Monotone(ops) && key != "" && GrantsNow(ttl, ops, session, key)
    ensures HeldSinceLatest(ttl, ops, session, key)
  {
    assert GrantedBefore(ttl, ops, |ops| - 1, |ops|, session, key);
  }

  /** An operation that does not grant the key leaves its entry alone or purges it. */
  lemma ClaimStays(ttl: Option<real>, ops: seq<Op>, session: string, key: string)
    requires ops != [] && key != "" && !GrantsNow(ttl, ops, session, key)
    ensures var before, after := ClaimsAfter(ttl, ops[..|ops| - 1]), ClaimsAfter(ttl, ops);
            && ((session, key) in after <==> (session, key) in before && ops[|ops| - 1] != Purge(session))
            && ((session, key) in after ==> after[(session, key)] == before[(session, key)])
  {
  }

  lemma LatestStays(ttl: Option<real>, ops: seq<Op>, session: string, key: string)
    requires ops != [] && key != "" && !GrantsNow(ttl, ops, session, key)
    requires HeldSinceLatest(ttl, ops[..|ops| - 1], session, key)
    ensures HeldSinceLatest(ttl, ops, session, key)
  {
    SomeGrantStays(ttl, ops, session, key);
    NoLaterGrantComes(ttl, ops, session, key);
  }

  lemma SomeGrantStays(ttl: Option<real>, ops: seq<Op>, session: string, key: string)
    requires ops != [] && key != "" && !GrantsNow(ttl, ops, session, key)
    requires HeldSinceSome(ttl, ops[..|ops| - 1], session, key)
    ensures HeldSinceSome(ttl, ops, session, key)
  {
    var n, front := |ops| - 1, ops[..|ops| - 1];
    ClaimStays(ttl, ops, session, key);
    if (session, key) in ClaimsAfter(ttl, ops) {
      var i :| 0 <= i < n && GrantedBefore(ttl, front, i, n, session, key)
               && front[i].now == ClaimsAfter(ttl, front)[(session, key)];
      GrantExtends(ttl, ops, i, session, key);
    }
  }

  lemma NoLaterGrantComes(ttl: Option<real>, ops: seq<Op>, session: string, key: string)
    requires ops != [] && key != "" && !GrantsNow(ttl, ops, session, key)
    requires NoLaterGrant(ttl, ops[..|ops| - 1], session, key)
    ensures NoLaterGrant(ttl, ops, session, key)
  {
    var claims := ClaimsAfter(ttl, ops);
    ClaimStays(ttl, ops, session, key);
    forall i | 0 <= i < |ops| && GrantedBefore(ttl, ops, i, |ops|, session, key)
      ensures (session, key) in claims && ops[i].now <= claims[(session, key)]
    {
      GrantExtends(ttl, ops, i, session, key);
    }
  }

  lemma GrantExtends(ttl: Option<real>, ops: seq<Op>, i: nat, session: string, key: string)
    requires ops != [] && i < |ops| - 1
    ensures var n := |ops| - 1;
            GrantedBefore(ttl, ops, i, |ops|, session, key)
            <==> GrantedBefore(ttl, ops[..n], i, n, session, key) && ops[n] != Purge(session)
  {
    var n := |ops| - 1;
    assert ops[..n][..i] == ops[..i];
    assert forall p | i < p < n :: ops[..n][p] == ops[p];
  }

  /** A claim is granted exactly when every earlier grant of its key has expired or was purged. */
  lemma GrantedIffNoLiveGrant(ttl: Option<real>, ops: seq<Op>, j: nat)
    requires Monotone(ops) && j < |ops| && ops[j].Claim? && ops[j].key != ""
    ensures Answered(ttl, ops, j) <==>
            forall i | 0 <= i < j && GrantedBefore(ttl, ops, i, j, ops[j].session, ops[j].key) ::
              ttl.Some? && ops[j].now >= ops[i].now + ttl.value
  {
    var session, key := ops[j].session, ops[j].key;
    var front := ops[..j];
    HeldSinceLatestGrant(ttl, front, session, key);
    forall i | 0 <= i < j
      ensures GrantedBefore(ttl, front, i, j, session, key) <==> GrantedBefore(ttl, ops, i, j, session, key)
    {
      assert front[..i] == ops[..i];
      assert forall p | i < p < j :: front[p] == ops[p];
    }
  }

  /** A claim without a key is always granted and leaves nothing behind. */
  lemma EmptyKeyIsFree(ttl: Option<real>, ops: seq<Op>, j: nat)
    requires j < |ops| && ops[j].Claim? && ops[j].key == ""
    ensures Answered(ttl, ops, j) && ClaimsAfter(ttl, ops[..j + 1]) == ClaimsAfter(ttl, ops[..j])
  {
    assert ops[..j + 1][..j] == ops[..j];
  }

  /** Without a purge in between, two grants of one key are at least a TTL apart. */
  lemma OneGrantPerWindow(ttl: Option<real>, ops: seq<Op>, i: nat, j: nat)
    requires Monotone(ops) && i < j < |ops|
    requires ops[i].Claim? && ops[j].Claim? && ops[j].key != ""
    requires ops[i].session == ops[j].session && ops[i].key == ops[j].key
    requires forall p | i < p < j :: ops[p] != Purge(ops[j].session)
    requires Answered(ttl, ops, i) && Answered(ttl, ops, j)
    ensures ttl.Some? && ops[j].now - ops[i].now >= ttl.value
  {
    GrantedIffNoLiveGrant(ttl, ops, j);
    assert GrantedBefore(ttl, ops, i, j, ops[j].session, ops[j].key);
  }
}

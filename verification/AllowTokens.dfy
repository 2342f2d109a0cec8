/**
 The wrappers around the AllowTokens contract: the constant answers of the oldest one, and the cache
 of token limits that the two newer ones share, line for line.
 */
module AllowTokens {
  import opened Options
  import opened Network

  // ---------------------------------------------------------------- version 0

  function V0Depth(chainId: int): nat {
    match chainId
    case 1 => 240
    case 30 => 120
    case 31 => 10
    case 42 => 10
    case _ => 0
  }

  function V0Confirmations(chainId: int): Confirmations {
    Confirmations(V0Depth(chainId), V0Depth(chainId), V0Depth(chainId))
  }

  const V0_LIMITS := Limits(true, -1, 0)

  // Every token is allowed and every amount is large.
  lemma V0EveryAmountIsLarge(amount: nat)
    ensures V0_LIMITS.allowed && amount >= V0_LIMITS.largeAmount > V0_LIMITS.mediumAmount
  {
  }

  // Successive assignments to one local, as the source has them.
  method V0GetConfirmations(chainId: int) returns (conf: Confirmations)
    ensures conf.small == conf.medium == conf.large
    ensures conf == V0Confirmations(chainId)
    ensures chainId == 1 ==> conf.large == 240
    ensures chainId == 30 ==> conf.large == 120
    ensures chainId == 31 || chainId == 42 ==> conf.large == 10
    ensures chainId !in {1, 30, 31, 42} ==> conf.large == 0
  {
    var confirmations := 0;
    if chainId == 31 || chainId == 42 {
      confirmations := 10;
    }
    if chainId == 1 {
      confirmations := 240;
    }
    if chainId == 30 {
      confirmations := 120;
    }
    conf := Confirmations(confirmations, confirmations, confirmations);
  }

  // ---------------------------------------------------------------- the cache

  // One call of getLimits: the token, and what the contract would answer at that moment (nothing
  // when the call to the contract would fail).
  datatype Query = Query(token: Address, reply: Option<Limits>) {
    predicate Allows(t: Address) {
      token == t && reply.Some? && reply.value.allowed
    }
  }

  function Answer(cache: map<Address, Limits>, q: Query): Option<Limits> {
    if q.token in cache then Some(cache[q.token]) else q.reply
  }

  function Update(cache: map<Address, Limits>, q: Query): map<Address, Limits> {
    if q.token !in cache && q.Allows(q.token) then cache[q.token := q.reply.value] else cache
  }

  function CacheAfter(queries: seq<Query>): map<Address, Limits> {
    if queries == [] then map[]
    else Update(CacheAfter(queries[..|queries| - 1]), queries[|queries| - 1])
  }

  class LimitsCache {
    var mapTokenInfoAndLimits: map<Address, Limits>

    constructor ()
      ensures mapTokenInfoAndLimits == CacheAfter([])
    {
      mapTokenInfoAndLimits := map[];
    }

    method GetLimits(q: Query) returns (result: Option<Limits>)
      modifies this
      ensures result == Answer(old(mapTokenInfoAndLimits), q)
      ensures mapTokenInfoAndLimits == Update(old(mapTokenInfoAndLimits), q)
    {
      if q.token in mapTokenInfoAndLimits {
        return Some(mapTokenInfoAndLimits[q.token]);
      }
      if q.reply.None? {
        return None;
      }
      result := q.reply;
      if result.value.allowed {
        mapTokenInfoAndLimits := mapTokenInfoAndLimits[q.token := result.value];
      }
    }
  }

  // The first query at which the contract allowed the token.
  ghost predicate FirstAllowedAt(queries: seq<Query>, token: Address, i: nat) {
    && i < |queries| && queries[i].Allows(token)
    && forall j | 0 <= j < i :: !queries[j].Allows(token)
  }

  lemma FirstAllowedInPrefix(queries: seq<Query>, n: nat, token: Address, i: nat)
    requires n <= |queries|
    ensures FirstAllowedAt(queries[..n], token, i) <==> i < n && FirstAllowedAt(queries, token, i)
  {
  }

  lemma {:induction false} NoneAllowed(queries: seq<Query>, token: Address)
    requires forall i: nat :: !FirstAllowedAt(queries, token, i)
    ensures forall j | 0 <= j < |queries| :: !queries[j].Allows(token)
  {
    var j := 0;
    while j < |queries|
      invariant 0 <= j <= |queries| && forall i | 0 <= i < j :: !queries[i].Allows(token)
    {
      assert !FirstAllowedAt(queries, token, j);
      j := j + 1;
    }
  }

  // The cache holds, for each token, the first answer that allowed it, and nothing else.
  lemma {:induction false} CacheHoldsFirstAllowed(queries: seq<Query>, token: Address)
    ensures token in CacheAfter(queries) <==> exists i: nat :: FirstAllowedAt(queries, token, i)
    ensures forall i: nat | FirstAllowedAt(queries, token, i) ::
              token in CacheAfter(queries) && Some(CacheAfter(queries)[token]) == queries[i].reply
    decreases |queries|
  {
    if queries == [] {
    } else {
      var n := |queries| - 1;
      var before := queries[..n];
      CacheHoldsFirstAllowed(before, token);
      forall i: nat
        ensures FirstAllowedAt(before, token, i) <==> i < n && FirstAllowedAt(queries, token, i)
      {
        FirstAllowedInPrefix(queries, n, token, i);
      }
      if token !in CacheAfter(before) {
        NoneAllowed(before, token);
        assert forall j | 0 <= j < n :: !before[j].Allows(token) && before[j] == queries[j];
        assert FirstAllowedAt(queries, token, n) <==> queries[n].Allows(token);
      } else {
        var first: nat :| FirstAllowedAt(before, token, first);
        assert FirstAllowedAt(queries, token, first);
      }
    }
  }

  // What the k-th call of a sequence returns.
  function AnswerAt(queries: seq<Query>, k: nat): Option<Limits>
    requires k < |queries|
  {
    Answer(CacheAfter(queries[..k]), queries[k])
  }

  // The contract never changes the limits of a token it has once allowed.
  ghost predicate FixedOnceAllowed(queries: seq<Query>) {
    forall i, j | 0 <= i < j < |queries| && queries[i].Allows(queries[j].token) && queries[j].reply.Some? ::
      queries[j].reply == queries[i].reply
  }

  // Each call returns what the contract itself would have answered, whenever it would have.
  ghost predicate AgreesWithContract(queries: seq<Query>) {
    forall k | 0 <= k < |queries| && queries[k].reply.Some? :: AnswerAt(queries, k) == queries[k].reply
  }

  // A cached call returns the first allowing answer if there was one, else what the contract says.
  lemma CachedAnswer(queries: seq<Query>, k: nat)
    requires k < |queries|
    ensures AnswerAt(queries, k) == queries[k].reply
            || exists i :: 0 <= i < k && queries[i].Allows(queries[k].token) && AnswerAt(queries, k) == queries[i].reply
    ensures (forall i | 0 <= i < k :: !queries[i].Allows(queries[k].token)) ==> AnswerAt(queries, k) == queries[k].reply
  {
    var token := queries[k].token;
    CacheHoldsFirstAllowed(queries[..k], token);
    if token in CacheAfter(queries[..k]) {
      var i: nat :| FirstAllowedAt(queries[..k], token, i);
      FirstAllowedInPrefix(queries, k, token, i);
    }
  }

  lemma EarlierAnswer(queries: seq<Query>, token: Address, i: nat) returns (first: nat)
    requires i < |queries| && queries[i].Allows(token)
    ensures first <= i && FirstAllowedAt(queries, token, first)
    ensures first == i ==> token !in CacheAfter(queries[..i])
  {
    CacheHoldsFirstAllowed(queries[..i], token);
    if token in CacheAfter(queries[..i]) {
      first :| FirstAllowedAt(queries[..i], token, first);
      FirstAllowedInPrefix(queries, i, token, first);
    } else {
      NoneAllowed(queries[..i], token);
      assert forall j | 0 <= j < i :: queries[..i][j] == queries[j];
      first := i;
    }
  }

  lemma CachedIs(queries: seq<Query>, token: Address, first: nat, k: nat)
    requires k <= |queries| && first < k && FirstAllowedAt(queries, token, first)
    ensures token in CacheAfter(queries[..k]) && Some(CacheAfter(queries[..k])[token]) == queries[first].reply
  {
    CacheHoldsFirstAllowed(queries[..k], token);
    FirstAllowedInPrefix(queries, k, token, first);
  }

  // Once a token is allowed, later calls for it all return the same.
  lemma AnswersStick(queries: seq<Query>, i: nat, j: nat)
    requires i < j < |queries| && queries[i].Allows(queries[j].token)
    ensures AnswerAt(queries, j) == AnswerAt(queries, i)
  {
    var token := queries[j].token;
    var first := EarlierAnswer(queries, token, i);
    CachedIs(queries, token, first, j);
    if first < i {
      CachedIs(queries, token, first, i);
    }
  }

  // Main result: a sequence of cached calls is indistinguishable from direct calls exactly when the
  // contract's answer for a token is fixed once it allows the token.
  lemma CacheIsTransparentExactlyWhen(queries: seq<Query>)
    ensures AgreesWithContract(queries) <==> FixedOnceAllowed(queries)
  {
    if FixedOnceAllowed(queries) {
      forall k | 0 <= k < |queries| && queries[k].reply.Some?
        ensures AnswerAt(queries, k) == queries[k].reply
      {
        CachedAnswer(queries, k);
      }
    }
    if AgreesWithContract(queries) {
      forall i, j | 0 <= i < j < |queries| && queries[i].Allows(queries[j].token) && queries[j].reply.Some?
        ensures queries[j].reply == queries[i].reply
      {
        assert AnswerAt(queries, i) == queries[i].reply && AnswerAt(queries, j) == queries[j].reply;
        AnswersStick(queries, i, j);
      }
    }
  }
}

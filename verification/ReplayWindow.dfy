/**
 * Scanner tokens signed with a stored key: lifetime and skew checks, then a claim of the token id
 * in a bucket that forgets claims after a while. Times are whole seconds.
 */
module ReplayWindow {
  import opened Wrappers

  /** Accepted clock skew on either side of a token's validity. */
  const SKEW := 30
  /** Longest accepted span from `iat` to `exp`. */
  const MAX_LIFETIME := 600
  /** How long the bucket keeps a claim. */
  const RETENTION := 900

  /** Claims of a parsed token; `checks` stands for signature, audience, issuer and key expiry. */
  datatype Token = Token(jti: string, sub: string, iat: Option<int>, exp: Option<int>, checks: bool)

  /** One authentication: when the token was validated and when its id reached the bucket. */
  datatype Attempt = Attempt(tok: Token, checkedAt: int, claimedAt: int)

  /** Token id to the time of its claim. */
  type Claims = map<string, int>

  /** The checks that precede the claim. */
  predicate Valid(tok: Token, now: int) {
    && tok.checks
    && tok.iat.Some? && tok.exp.Some?
    && now >= tok.iat.value - SKEW
    && now < tok.exp.value + SKEW
    && tok.exp.value - tok.iat.value <= MAX_LIFETIME
    && tok.jti != ""
  }

  /** A claim is refused while an earlier one for the same id is retained. */
  predicate Free(claims: Claims, jti: string, now: int) {
    jti !in claims || now >= claims[jti] + RETENTION
  }

  function ClaimsAfter(claims: Claims, a: Attempt): Claims {
    if Valid(a.tok, a.checkedAt) && Free(claims, a.tok.jti, a.claimedAt)
    then claims[a.tok.jti := a.claimedAt] else claims
  }

  /** The sub is checked only behind the claim, so a token without one still uses up its id. */
  predicate Accepts(claims: Claims, a: Attempt) {
    Valid(a.tok, a.checkedAt) && Free(claims, a.tok.jti, a.claimedAt) && a.tok.sub != ""
  }

  /** The bucket every request shares, and the authentication that ends by claiming in it. */
  class JtiBucket {
    var claims: Claims

    constructor ()
      ensures claims == map[]
    {
      claims := map[];
    }

    method ClaimJTI(jti: string, now: int) returns (ok: bool)
      modifies this
      ensures ok <==> Free(old(claims), jti, now)
      ensures claims == if ok then old(claims)[jti := now] else old(claims)
    {
      if jti in claims && now < claims[jti] + RETENTION {
        return false;
      }
      claims := claims[jti := now];
      return true;
    }

    method Authenticate(a: Attempt) returns (ok: bool)
      modifies this
      ensures ok <==> Accepts(old(claims), a)
      ensures claims == ClaimsAfter(old(claims), a)
    {
      var tok := a.tok;
      if !tok.checks || tok.iat.None? || tok.exp.None? {
        return false;
      }
      if a.checkedAt < tok.iat.value - SKEW || a.checkedAt >= tok.exp.value + SKEW {
        return false;
      }
      if tok.exp.value - tok.iat.value > MAX_LIFETIME || tok.jti == "" {
        return false;
      }
      var claimed := ClaimJTI(tok.jti, a.claimedAt);
      return claimed && tok.sub != "";
    }
  }

  // ---- Runs ----

  function Store(run: seq<Attempt>): Claims {
    if run == [] then map[] else ClaimsAfter(Store(run[..|run| - 1]), run[|run| - 1])
  }

  predicate AcceptedAt(run: seq<Attempt>, i: nat)
    requires i < |run|
  {
    Accepts(Store(run[..i]), run[i])
  }

  /** Claims reach the bucket in clock order, none later than `stall` seconds behind its validation. */
  predicate Timely(run: seq<Attempt>, stall: int) {
    && (forall i :: 0 <= i < |run| ==> run[i].checkedAt <= run[i].claimedAt <= run[i].checkedAt + stall)
    && (forall i, j :: 0 <= i < j < |run| ==> run[i].claimedAt <= run[j].claimedAt)
  }

  /** Once accepted, a token id stays in the bucket with a claim no older than the acceptance. */
  lemma {:induction false} ClaimStays(run: seq<Attempt>, i: nat, n: nat, stall: int)
    requires Timely(run, stall) && i < n <= |run| && AcceptedAt(run, i)
    ensures run[i].tok.jti in Store(run[..n]) && Store(run[..n])[run[i].tok.jti] >= run[i].claimedAt
  {
    var part := run[..n];
    assert part[..n - 1] == run[..n - 1] && part[n - 1] == run[n - 1];
    if n > i + 1 {
      ClaimStays(run, i, n - 1, stall);
    }
  }

  /** No token is accepted twice. */
  ghost predicate NoReplay(run: seq<Attempt>) {
    forall i, j :: 0 <= i < j < |run| && AcceptedAt(run, i) && AcceptedAt(run, j) ==> run[i].tok != run[j].tok
  }

  lemma TimelyRunsHaveNoReplay(run: seq<Attempt>, stall: int)
    requires stall <= RETENTION - MAX_LIFETIME - 2 * SKEW && Timely(run, stall)
    ensures NoReplay(run)
  {
    forall i, j | 0 <= i < j < |run| && AcceptedAt(run, i) && AcceptedAt(run, j)
      ensures run[i].tok != run[j].tok
    {
      ClaimStays(run, i, j, stall);
      assert Valid(run[i].tok, run[i].checkedAt) && Valid(run[j].tok, run[j].checkedAt);
      assert Free(Store(run[..j]), run[j].tok.jti, run[j].claimedAt);
    }
  }

  /** One token, used at both ends of its window, the second claim just late enough. */
  lemma StalledReplay(stall: int) returns (run: seq<Attempt>)
    requires stall > RETENTION - MAX_LIFETIME - 2 * SKEW
    ensures Timely(run, stall) && !NoReplay(run)
  {
    var tok := Token("id", "scanner", Some(0), Some(MAX_LIFETIME), true);
    var first := Attempt(tok, -SKEW, -SKEW);
    var second := Attempt(tok, MAX_LIFETIME + SKEW - 1, RETENTION - SKEW);
    run := [first, second];
    assert run[..0] == [] && run[..1] == [first];
    assert [first][..0] == [];
    assert Store([first]) == map["id" := -SKEW];
    assert AcceptedAt(run, 0) && AcceptedAt(run, 1);
  }

  /**
   * With a monotone clock a token is accepted at most once in every run exactly when no request
   * stalls more than four minutes between validating a token and claiming its id: the acceptance
   * window is eleven minutes, the retention fifteen.
   */
  lemma NoReplayIff(stall: nat)
    ensures (forall run :: Timely(run, stall) ==> NoReplay(run)) <==> stall <= 240
  {
    if stall <= 240 {
      forall run | Timely(run, stall) ensures NoReplay(run) {
        TimelyRunsHaveNoReplay(run, stall);
      }
    } else {
      var run := StalledReplay(stall);
    }
  }
}

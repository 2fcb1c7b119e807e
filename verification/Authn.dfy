/** Which issuer authenticates a token, and what class of principal that makes. */
module Authn {
  import opened Wrappers

  /**
   * A bearer token after parsing: its claims, and whether the signature, audience and lifetime
   * checks of the issuer it is dispatched to would pass.
   */
  datatype Token = Token(iss: string, sub: string, checks: bool, scopes: seq<string>, groups: seq<string>)

  datatype Principal = Principal(issuer: string, sub: string, publisher: bool, scopes: seq<string>, groups: seq<string>)

  /** A configured publisher issuer: its URL and which subs its trust entries may name. */
  datatype PublisherIssuer = PublisherIssuer(url: string, accepts: string -> bool)

  /** `staticKeys` are the issuers whose stored key has not expired when the token arrives. */
  datatype Registry = Registry(oidc: string, publishers: map<string, PublisherIssuer>, staticKeys: set<string>)

  datatype SetupError = NoOidc | NoReplayStore

  /** Issuers by URL; of two with one URL the later wins. */
  function ByUrl(publishers: seq<PublisherIssuer>): map<string, PublisherIssuer> {
    if publishers == [] then map[]
    else
      var last := publishers[|publishers| - 1];
      ByUrl(publishers[..|publishers| - 1])[last.url := last]
  }

  /** Builds the registry. A store of runtime keys is refused without a replay store. */
  method NewIssuerRegistry(oidc: Option<string>, publishers: seq<PublisherIssuer>, keys: Option<set<string>>, replay: bool)
    returns (r: Result<Registry, SetupError>)
    ensures r == Err(NoOidc) <==> oidc.None?
    ensures r == Err(NoReplayStore) <==> oidc.Some? && keys.Some? && !replay
    ensures r.Ok? ==> r.value == Registry(oidc.value, ByUrl(publishers), if keys.Some? then keys.value else {})
  {
    if oidc.None? {
      return Err(NoOidc);
    }
    if keys.Some? && !replay {
      return Err(NoReplayStore);
    }
    var m: map<string, PublisherIssuer> := map[];
    for k := 0 to |publishers|
      invariant m == ByUrl(publishers[..k])
    {
      assert publishers[..k + 1][..k] == publishers[..k];
      m := m[publishers[k].url := publishers[k]];
    }
    assert publishers[..|publishers|] == publishers;
    return Ok(Registry(oidc.value, m, if keys.Some? then keys.value else {}));
  }

  function TrimSlashes(s: string): string {
    if s != [] && s[|s| - 1] == '/' then TrimSlashes(s[..|s| - 1]) else s
  }

  /**
   * The dispatch order: human identity provider, configured publishers, stored keys, reject. The
   * claim is trimmed for the lookup but the chosen issuer compares it untrimmed.
   */
  function Authenticate(r: Registry, tok: Token): Option<Principal> {
    var iss := TrimSlashes(tok.iss);
    if tok.iss == "" || !tok.checks || tok.iss != iss || tok.sub == "" then None
    else if iss == r.oidc then Some(Principal(iss, tok.sub, false, tok.scopes, tok.groups))
    else if iss in r.publishers then Some(Principal(iss, tok.sub, true, [], []))
    else if iss in r.staticKeys then Some(Principal(iss, tok.sub, true, [], []))
    else None
  }

  /**
   * Publisher class comes from the issuer alone: the human provider never grants it, every other
   * accepted issuer always does, and a publisher never carries scopes or groups.
   */
  lemma PublisherClassIff(r: Registry, tok: Token)
    requires Authenticate(r, tok).Some?
    ensures var p := Authenticate(r, tok).value;
            && p.issuer == tok.iss && p.sub == tok.sub && p.issuer != "" && p.sub != ""
            && (p.publisher <==> tok.iss != r.oidc)
            && (p.publisher <==> tok.iss != r.oidc && (tok.iss in r.publishers || tok.iss in r.staticKeys))
            && (p.publisher ==> p.scopes == [] && p.groups == [])
  {
  }

  /** The position of `://`, or nothing. */
  function SchemeEnd(s: string, from: nat): (r: Option<nat>)
    requires from <= |s|
    ensures r.Some? ==> from <= r.value && r.value + 3 <= |s|
    decreases |s| - from
  {
    if |s| - from < 3 then None
    else if s[from..from + 3] == "://" then Some(from)
    else SchemeEnd(s, from + 1)
  }

  /** The end of the host: the first slash behind the scheme, or the end. */
  function HostEnd(s: string, from: nat): (e: nat)
    requires from <= |s|
    ensures from <= e <= |s|
    decreases |s| - from
  {
    if from == |s| || s[from] == '/' then from else HostEnd(s, from + 1)
  }

  predicate ValidIssuerURL(issuer: string) {
    match SchemeEnd(issuer, 0)
    case None => false
    case Some(i) => forall k :: 0 <= k < HostEnd(issuer, i + 3) ==> !('A' <= issuer[k] <= 'Z')
  }

  /** Whether the gateway accepts a trust entry. The human provider rejects every sub. */
  predicate ValidTrustEntry(r: Registry, issuer: string, sub: string) {
    && ValidIssuerURL(issuer)
    && issuer != r.oidc
    && issuer in r.publishers && r.publishers[issuer].accepts(sub)
  }

  /**
   * An entry the gateway accepts names a configured publisher, so every token that could use it
   * is dispatched there and never to a stored key.
   */
  lemma AcceptedEntriesAreConfigured(r: Registry, tok: Token)
    requires ValidTrustEntry(r, tok.iss, tok.sub) && Authenticate(r, tok).Some?
    ensures tok.iss in r.publishers && Authenticate(r, tok).value.publisher
    ensures Authenticate(r, tok) == Authenticate(r.(staticKeys := {}), tok)
  {
  }

  /**
   * A registration that carries a scanner key must list an entry with issuer == sub, and all its
   * entries must be accepted; so it gets through exactly when that issuer is also a configured
   * publisher, and then the stored key is never consulted.
   */
  lemma StoredKeyNeverDecides(r: Registry, scanner: string, tok: Token)
    requires ValidTrustEntry(r, scanner, scanner) && tok.iss == scanner
    ensures Authenticate(r.(staticKeys := r.staticKeys + {scanner}), tok) == Authenticate(r, tok)
  {
  }
}

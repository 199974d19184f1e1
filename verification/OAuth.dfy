// Authorization codes: what is asked for, what is minted, and the checks of the
// authorize and token endpoints.

module OAuth {
  import opened Clock
  import opened Types
  import opened Scopes

  /** The two digests, as functions of the text. */
  datatype Crypto = Crypto(s256: string -> string, hash: string -> string)

  datatype Client = Client(tenant: Id, confidential: bool, secretHash: string,
                           redirectUris: seq<string>, grantTypes: seq<string>, scopes: seq<string>)

  type Clients = map<string, Client>

  datatype Code = Code(clientId: string, owner: Owner, scopes: seq<string>, redirectUri: string,
                       challenge: string, nonce: string, expiresAt: Time)

  datatype AuthorizeInput = AuthorizeInput(clientId: string, redirectUri: string, responseType: string,
                                           scope: string, challenge: string, challengeMethod: string,
                                           nonce: string, principal: Owner)

  datatype TokenInput = TokenInput(code: Id, redirectUri: string, clientId: string, clientSecret: string,
                                   verifier: string)

  datatype AuthorizeError =
    | UnsupportedResponse | MissingPKCE | UnsupportedChallenge | InvalidClient
    | InvalidRedirectURI | UnsupportedGrant | InvalidScope

  // ----- The checks -----

  /** The checks of the authorize endpoint, in order; none means a code is minted. */
  function AuthorizeFails(clients: Clients, a: AuthorizeInput): Option<AuthorizeError> {
    if a.responseType != "code" then Some(UnsupportedResponse)
    else if a.challenge == "" then Some(MissingPKCE)
    else if a.challengeMethod != "S256" then Some(UnsupportedChallenge)
    else if a.clientId !in clients then Some(InvalidClient)
    else
      var client := clients[a.clientId];
      if a.redirectUri !in client.redirectUris then Some(InvalidRedirectURI)
      else if "authorization_code" !in client.grantTypes then Some(UnsupportedGrant)
      else if exists s :: s in SplitScopes(a.scope) && s !in client.scopes then Some(InvalidScope)
      else if client.tenant != a.principal.tenant then Some(InvalidClient)
      else None
  }

  function Minted(a: AuthorizeInput, now: Time): Code {
    Code(a.clientId, a.principal, SplitScopes(a.scope), a.redirectUri, a.challenge, a.nonce, now + CODE_TTL)
  }

  /** One run of the authorize endpoint that got through its checks, and when it read the clock. */
  datatype Mint = Mint(request: AuthorizeInput, at: Time)

  function CodeOf(m: Mint): Code {
    Minted(m.request, m.at)
  }

  predicate ClientAuthenticated(crypto: Crypto, clients: Clients, t: TokenInput) {
    && t.clientId in clients
    && (clients[t.clientId].confidential ==>
          t.clientSecret != "" && crypto.hash(t.clientSecret) == clients[t.clientId].secretHash)
  }

  predicate CodeAccepted(crypto: Crypto, t: TokenInput, c: Code, now: Time) {
    && now <= c.expiresAt
    && c.clientId == t.clientId && c.redirectUri == t.redirectUri
    && crypto.s256(t.verifier) == c.challenge
  }
}

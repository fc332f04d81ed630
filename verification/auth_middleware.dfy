/** The authentication gate that runs in front of every private route: it takes
    the bearer token from the `x-auth-token` header, has it verified against the
    configured secret, and either answers 401 or binds the verified user to the
    request and hands the request on. */
module AuthMiddleware {
  import opened Schema
  import opened Http

  /** The one header the token is read from (incoming header names are lower case). */
  const TokenHeader := "x-auth-token"

  const NoTokenMsg := "No Token,authorization denied"
  const InvalidTokenMsg := "Token not valid,authorization denied"

  /** `req.user` as the token issuers write it: `{ id }`. */
  datatype AuthUser = AuthUser(id: UserId)

  /** Why the token library refused a token; the gate does not tell them apart. */
  datatype VerifyFailure = Malformed | BadSignature | Expired

  /** What `jwt.verify(token, secret)` gives: the decoded payload's user, or a failure. */
  datatype Verified = Decoded(user: AuthUser) | Refused(reason: VerifyFailure)

  /** The gate's decision: answer the request, or pass it on with an identity. */
  datatype Outcome = Reject(response: Response) | Proceed(user: AuthUser)

  /** `req.header('x-auth-token')` */
  function TokenOf(headers: map<string, string>): (token: Field)
    ensures token.Some? <==> TokenHeader in headers
    ensures token.Some? ==> token.value == headers[TokenHeader]
  {
    if TokenHeader in headers then Some(headers[TokenHeader]) else None
  }

  /** The gate's decision for a header value and a verification oracle. The
      oracle is consulted only for a truthy token, and every refusal it gives,
      whatever its reason, ends in the same answer. */
  function Decide(token: Field, verify: string -> Verified): (o: Outcome)
    ensures o == Reject(Response(401, Msg(NoTokenMsg))) <==> !Truthy(token)
    ensures o == Reject(Response(401, Msg(InvalidTokenMsg)))
            <==> Truthy(token) && verify(token.value).Refused?
    ensures o.Proceed? <==> Truthy(token) && verify(token.value).Decoded?
    ensures o.Proceed? ==> verify(token.value) == Decoded(o.user)
    ensures o.Reject? ==> o.response.status == 401
  {
    if !Truthy(token) then Reject(Response(401, Msg(NoTokenMsg)))
    else match verify(token.value)
      case Refused(_) => Reject(Response(401, Msg(InvalidTokenMsg)))
      case Decoded(user) => Proceed(user)
  }

  /** One incoming request as the gate sees it: its headers, the identity bound to
      it (`req.user`, absent until bound) and how often the next handler ran. */
  class Request {
    const headers: map<string, string>
    var user: Option<AuthUser>
    var nextCalls: nat

    constructor (headers: map<string, string>)
      ensures this.headers == headers && user == None && nextCalls == 0
    {
      this.headers := headers;
      user := None;
      nextCalls := 0;
    }

    /** `next()`: the downstream handler is entered. */
    method Next()
      modifies this
      ensures nextCalls == old(nextCalls) + 1 && user == old(user)
    {
      nextCalls := nextCalls + 1;
    }
  }

  /** The middleware itself: sends the 401 answer when it rejects, and otherwise
      sets `req.user` to the decoded user and calls `next()` exactly once. */
  method Authenticate(req: Request, verify: string -> Verified) returns (sent: Option<Response>)
    modifies req
    ensures Decide(TokenOf(req.headers), verify).Reject? ==>
      sent == Some(Decide(TokenOf(req.headers), verify).response)
      && req.user == old(req.user) && req.nextCalls == old(req.nextCalls)
    ensures Decide(TokenOf(req.headers), verify).Proceed? ==>
      sent == None
      && req.user == Some(Decide(TokenOf(req.headers), verify).user)
      && req.nextCalls == old(req.nextCalls) + 1
  {
    var token := TokenOf(req.headers);
    if !Truthy(token) {
      return Some(Response(401, Msg(NoTokenMsg)));
    }
    var decoded := verify(token.value);
    if decoded.Refused? {
      return Some(Response(401, Msg(InvalidTokenMsg)));
    }
    req.user := Some(decoded.user);
    req.Next();
    sent := None;
  }

  /** A request without the header, or with it empty, is refused without ever
      consulting the token library. */
  lemma MissingTokenRefused(headers: map<string, string>, verify: string -> Verified)
    requires TokenHeader !in headers || headers[TokenHeader] == ""
    ensures Decide(TokenOf(headers), verify) == Reject(Response(401, Msg(NoTokenMsg)))
  {
  }

  /** A malformed, forged or expired token gets one and the same answer. */
  lemma RefusalsIndistinguishable(token: string, v1: string -> Verified, v2: string -> Verified)
    requires token != ""
    requires v1(token).Refused? && v2(token).Refused?
    ensures Decide(Some(token), v1) == Decide(Some(token), v2)
  {
  }

  /** The decision depends on nothing but the `x-auth-token` header and what the
      oracle says of it: other headers play no part. */
  lemma OnlyTokenHeaderRead(h1: map<string, string>, h2: map<string, string>, verify: string -> Verified)
    requires TokenHeader in h1 <==> TokenHeader in h2
    requires TokenHeader in h1 ==> h1[TokenHeader] == h2[TokenHeader]
    ensures Decide(TokenOf(h1), verify) == Decide(TokenOf(h2), verify)
  {
  }

  /** A fresh request that the gate turns away never carries an identity, and the
      downstream handler never runs for it. */
  method GateOnFreshRequest(headers: map<string, string>, verify: string -> Verified)
    returns (bound: Option<AuthUser>, entered: nat, sent: Option<Response>)
    ensures sent.Some? <==> Decide(TokenOf(headers), verify).Reject?
    ensures sent.Some? ==> bound == None && entered == 0 && sent.value.status == 401
    ensures sent.None? ==>
              && entered == 1
              && bound == Some(Decide(TokenOf(headers), verify).user)
              && Truthy(TokenOf(headers))
              && verify(headers[TokenHeader]) == Decoded(bound.value)
  {
    var req := new Request(headers);
    sent := Authenticate(req, verify);
    bound, entered := req.user, req.nextCalls;
  }
}

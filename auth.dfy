/**
 * The `protect` middleware of packages/backend/src/middlewares/auth.ts: the
 * Authorization header must start with "Bearer " (matched case-sensitively,
 * a looser form of the scheme of section 2.1 of RFC 6750); the token is the
 * second space-separated field; a token the verifier accepts sets
 * `req.user` and passes the request on. The JWT verification with the
 * server's secret is a parameter.
 */
module Auth {
  import opened Wrappers
  import opened Js
  import opened Json
  import opened Response

  /** The decoded token `{ id, email }`. */
  datatype Payload = Payload(id: int, email: string)

  const BearerPrefix: string := "Bearer "

  /** A header starting with "Bearer " splits into "Bearer" and the fields of the rest. */
  lemma SplitBearer(h: string)
    requires StartsWith(h, BearerPrefix)
    ensures Split(h, ' ') == ["Bearer"] + Split(h[7..], ' ')
  {
    assert forall k :: 0 <= k < 6 ==> "Bearer"[k] != ' ';
    assert h == "Bearer" + [' '] + h[7..];
    SplitFieldThenSep("Bearer", ' ', h[7..]);
  }

  /**
   * The token `protect` verifies: `None` when the header is missing, empty or
   * does not start with "Bearer "; otherwise `authHeader.split(' ')[1]`,
   * the text after the prefix up to the next space.
   */
  function BearerToken(header: Option<string>): (r: Option<string>)
    ensures r.Some? <==> header.Some? && StartsWith(header.value, "Bearer ")
    ensures r.Some? ==> r.value == FirstField(header.value[7..], ' ')
  {
    if !Truthy(header) || !StartsWith(header.value, BearerPrefix) then None
    else
      SplitBearer(header.value);
      SplitFirstField(header.value[7..], ' ');
      Some(Split(header.value, ' ')[1])
  }

  /** A space-free credential written after "Bearer " is the token read back. */
  lemma BearerTokenRoundTrip(token: string)
    requires ' ' !in token
    ensures BearerToken(Some("Bearer " + token)) == Some(token)
  {
    var h := "Bearer " + token;
    assert h[..7] == BearerPrefix;
    assert h[7..] == token;
    FirstFieldFree(token, ' ');
  }

  lemma {:induction false} FirstFieldFree(s: string, sep: char)
    requires sep !in s
    ensures FirstField(s, sep) == s
    decreases |s|
  {
    if s != [] {
      assert sep !in s[1..] by { assert forall c :: c in s[1..] ==> c in s; }
      FirstFieldFree(s[1..], sep);
      assert [s[0]] + s[1..] == s;
    }
  }

  /** "Bearer " alone gives the empty token, and the prefix is matched case-sensitively. */
  lemma BearerTokenEdgeCases(rest: string)
    ensures BearerToken(Some("Bearer ")) == Some("")
    ensures BearerToken(Some("bearer " + rest)) == None
    ensures BearerToken(None) == None && BearerToken(Some("")) == None
  {
    var lower := "bearer " + rest;
    assert lower[0] != BearerPrefix[0];
    BearerTokenRoundTrip("");
    assert "Bearer " + "" == "Bearer ";
  }

  /** The request as `protect` sees it: its Authorization header and the `user` it may set. */
  class Request {
    const authorization: Option<string>
    var user: Option<Payload>

    constructor (authorization: Option<string>)
      ensures this.authorization == authorization && user == None
    {
      this.authorization := authorization;
      user := None;
    }
  }

  /** Either `next()` is called or a reply is sent, never both. */
  datatype ProtectResult = CallNext | Deny(reply: Reply)

  method Protect(req: Request, verify: string -> Option<Payload>) returns (result: ProtectResult)
    modifies req
    ensures BearerToken(req.authorization).None? ==>
      result == Deny(ErrorJson(401, "Unauthorized")) && req.user == old(req.user)
    ensures BearerToken(req.authorization).Some? && verify(BearerToken(req.authorization).value).None? ==>
      result == Deny(ErrorJson(401, "Invalid token")) && req.user == old(req.user)
    ensures BearerToken(req.authorization).Some? && verify(BearerToken(req.authorization).value).Some? ==>
      result == CallNext && req.user == verify(BearerToken(req.authorization).value)
  {
    var token := BearerToken(req.authorization);
    if token.None? {
      return Deny(ErrorJson(401, "Unauthorized"));
    }
    var decoded := verify(token.value);
    if decoded.None? {
      return Deny(ErrorJson(401, "Invalid token"));
    }
    req.user := decoded;
    return CallNext;
  }
}

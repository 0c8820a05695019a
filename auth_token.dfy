/**
 * The `autenticarToken` middleware: it takes the second space-separated
 * part of the `authorization` header as a JSON Web Token, answers 401 when
 * there is none, asks the token library to verify it, answers 403 when
 * that fails, and otherwise records the decoded payload on the request and
 * hands it on. The library's signing and verification are parameters; a
 * verification failure covers a bad signature and an expired token alike.
 */
module TokenAuth {
  import opened Wrappers
  import opened Text

  const NoToken: string := "Token não fornecido."
  const BadToken: string := "Token inválido ou expirado."

  /** Token lifetime of `expiresIn: '1h'`, in seconds. */
  const OneHour: nat := 3600

  /** The payload of a token: who signed in, when it was issued, when it expires (seconds). */
  datatype Claims = Claims(id: string, email: string, iat: nat, exp: nat)

  /** The token library under the server's secret: `jwt.sign` and `jwt.verify` at a given second. */
  datatype Jwt = Jwt(sign: Claims -> string, verify: (string, nat) -> Option<Claims>)

  /**
   * What the library is relied on for: a token it signed verifies to its own
   * payload until the payload expires and not after, nothing verifies after
   * the expiry it carries,
   * and a token is never empty and holds no space (its alphabet is base64url
   * and `.`).
   */
  ghost predicate JwtSound(jwt: Jwt)
  {
    && (forall c: Claims, now: nat :: jwt.verify(jwt.sign(c), now) == if now < c.exp then Some(c) else None)
    && (forall t: string, now: nat :: jwt.verify(t, now).Some? ==> now < jwt.verify(t, now).value.exp)
    && (forall c: Claims :: jwt.sign(c) != "" && ' ' !in jwt.sign(c))
  }

  /** `authHeader && authHeader.split(' ')[1]`, kept only when it is a non-empty string. */
  function BearerToken(header: Option<string>): (t: Option<string>)
    ensures t.Some? <==> header.Some? && |Split(header.value, ' ')| >= 2 && Split(header.value, ' ')[1] != ""
    ensures t.Some? ==> t.value == Split(header.value, ' ')[1] && ' ' !in t.value
  {
    if header.None? || header.value == "" then None
    else
      var parts := Split(header.value, ' ');
      if |parts| < 2 || parts[1] == "" then None else Some(parts[1])
  }

  /** What the middleware does: answer with a status and `mensagem`, or call `next` with the payload. */
  datatype AuthOutcome = Refuse(status: nat, mensagem: string) | Proceed(usuario: Claims)

  /** The decision of `autenticarToken`; verification is asked only when there is a token. */
  function Authorize(header: Option<string>, jwt: Jwt, now: nat): (r: AuthOutcome)
    ensures BearerToken(header).None? ==> r == Refuse(401, NoToken)
    ensures BearerToken(header).Some? && jwt.verify(BearerToken(header).value, now).None? ==>
      r == Refuse(403, BadToken)
    ensures r.Proceed? <==> BearerToken(header).Some? && jwt.verify(BearerToken(header).value, now).Some?
    ensures r.Proceed? ==> r.usuario == jwt.verify(BearerToken(header).value, now).value
  {
    var token := BearerToken(header);
    if token.None? then Refuse(401, NoToken)
    else
      match jwt.verify(token.value, now)
      case None => Refuse(403, BadToken)
      case Some(c) => Proceed(c)
  }

  /** The part of an Express request the middleware reads and writes. */
  class Request {
    var authorization: Option<string>
    var usuario: Option<Claims>

    constructor(authorization: Option<string>)
      ensures this.authorization == authorization && usuario == None
    {
      this.authorization := authorization;
      usuario := None;
    }
  }

  /**
   * `autenticarToken(req, res, next)`: `req.usuario` is written exactly when
   * `next` is called, and the header is left alone.
   */
  method AutenticarToken(req: Request, jwt: Jwt, now: nat) returns (r: AuthOutcome)
    modifies req
    ensures r == Authorize(old(req.authorization), jwt, now)
    ensures req.authorization == old(req.authorization)
    ensures req.usuario == if r.Proceed? then Some(r.usuario) else old(req.usuario)
  {
    var token := BearerToken(req.authorization);
    if token.None? {
      return Refuse(401, NoToken);
    }
    var decoded := jwt.verify(token.value, now);
    if decoded.None? {
      return Refuse(403, BadToken);
    }
    req.usuario := decoded;
    r := Proceed(decoded.value);
  }

  // ---------------------------------------------------------------------
  // Properties
  // ---------------------------------------------------------------------

  /** `scheme + " " + token` gives back the token, for a one-word scheme such as `Bearer`. */
  lemma BearerRoundTrip(scheme: string, token: string)
    requires ' ' !in scheme && ' ' !in token && token != ""
    ensures BearerToken(Some(scheme + " " + token)) == Some(token)
  {
    var parts := [scheme, token];
    assert Join(parts, ' ') == scheme + " " + token by {
      assert Join(parts[1..], ' ') == token;
    }
    SplitJoin(parts, ' ');
  }

  /** Without a header, or with a header of one word, the answer is 401 whatever the library would say. */
  lemma NoTokenNoVerify(header: Option<string>, a: Jwt, b: Jwt, now: nat, later: nat)
    requires header.None? || ' ' !in header.value
    ensures Authorize(header, a, now) == Authorize(header, b, later) == Refuse(401, NoToken)
  {
    if header.Some? && header.value != "" {
      assert Split(header.value, ' ') == [header.value];
    }
  }

  /** A token is accepted only before the expiry written in it, given a sound library. */
  lemma ProceedBeforeExpiry(header: Option<string>, jwt: Jwt, now: nat)
    requires JwtSound(jwt) && Authorize(header, jwt, now).Proceed?
    ensures now < Authorize(header, jwt, now).usuario.exp
  {
  }

  /** A token the server signed is let through, within the hour, carrying its own payload. */
  lemma SignedTokenProceeds(jwt: Jwt, c: Claims, now: nat)
    requires JwtSound(jwt) && now < c.exp
    ensures Authorize(Some("Bearer " + jwt.sign(c)), jwt, now) == Proceed(c)
  {
    BearerRoundTrip("Bearer", jwt.sign(c));
  }

  /** The same token sent after its expiry is refused with 403. */
  lemma ExpiredTokenForbidden(jwt: Jwt, c: Claims, now: nat)
    requires JwtSound(jwt) && now >= c.exp
    ensures Authorize(Some("Bearer " + jwt.sign(c)), jwt, now) == Refuse(403, BadToken)
  {
    BearerRoundTrip("Bearer", jwt.sign(c));
  }
}

/**
 * The two routes of routes/auth.js over a collection of users keyed by
 * email: registration (`POST /auth/usuarios`) and login
 * (`POST /auth/login`). Password hashing and token signing are library
 * calls and come in as parameters; so do the salt bcrypt draws, the id the
 * driver generates, the current second and whether the database answers.
 */
module AuthService {
  import opened Wrappers
  import opened Json
  import opened ObjectIds
  import opened TokenAuth

  const CredentialsRequired: string := "Email e senha são obrigatórios."
  const EmailTaken: string := "Email já cadastrado."
  const Registered: string := "Usuário cadastrado com sucesso!"
  const ServerError: string := "Ocorreu um erro inesperado no servidor."
  const BadCredentials: string := "Credenciais inválidas."

  /** bcrypt's cost factor in `bcrypt.hash(senha, 10)`. */
  const SaltRounds: nat := 10

  /** A stored user: the password is kept only as its hash. */
  datatype User = User(id: ObjectId, email: string, senhaHash: string)

  /** `bcrypt.hash(password, rounds)` with the salt it draws made explicit, and `bcrypt.compare`. */
  datatype Bcrypt = Bcrypt(hash: (string, nat, string) -> string, compare: (string, string) -> bool)

  /** A password matches every hash made of it, whatever the rounds and the salt. */
  ghost predicate BcryptSound(bcrypt: Bcrypt)
  {
    forall p: string, rounds: nat, salt: string :: bcrypt.compare(p, bcrypt.hash(p, rounds, salt))
  }

  /** An answer of either route: `{ mensagem }`, `{ erro }`, or 200 `{ token, email }`. */
  datatype AuthReply =
    | Mensagem(status: nat, mensagem: string)
    | Erro(status: nat, erro: string)
    | Session(token: string, email: string)

  /**
   * What `const { email, senha } = req.body` yields, as far as the routes
   * care. The email goes to the user lookup before the password is looked
   * at, so a password of any truthy JSON value is carried as it is.
   */
  datatype Credentials = Missing | EmailNotText | Given(email: string, senha: Value)

  function ReadCredentials(body: Body): (c: Credentials)
    ensures c.Missing? <==> !Truthy(Get(body, "email")) || !Truthy(Get(body, "senha"))
    ensures c.EmailNotText? <==> !c.Missing? && !Get(body, "email").value.Str?
    ensures c.Given? ==>
      && Get(body, "email") == Some(Str(c.email)) && c.email != ""
      && Get(body, "senha") == Some(c.senha) && Truthy(Some(c.senha))
  {
    var e := Get(body, "email");
    var s := Get(body, "senha");
    if !Truthy(e) || !Truthy(s) then Missing
    else if e.value.Str? then Given(e.value.s, s.value)
    else EmailNotText
  }

  /** Some user already holds this id. */
  predicate IdTaken(users: map<string, User>, id: ObjectId)
  {
    exists e :: e in users && users[e].id == id
  }

  /** Every user sits under its own email, and no two users share an id. */
  ghost predicate UsersConsistent(users: map<string, User>)
  {
    && (forall e :: e in users ==> users[e].email == e)
    && (forall a, b :: a in users && b in users && a != b ==> users[a].id != users[b].id)
  }

  /** Adding a user under a new email with an unused id keeps the collection consistent. */
  lemma AddKeepsConsistent(users: map<string, User>, u: User)
    requires UsersConsistent(users) && u.email !in users && !IdTaken(users, u.id)
    ensures UsersConsistent(users[u.email := u])
  {
    var m := users[u.email := u];
    forall a, b | a in m && b in m && a != b ensures m[a].id != m[b].id {
      if a != u.email && b != u.email {
        assert m[a] == users[a] && m[b] == users[b];
      }
    }
  }

  class UserStore {
    var users: map<string, User>

    ghost predicate Valid()
      reads this
    {
      UsersConsistent(users)
    }

    constructor()
      ensures Valid() && users == map[]
    {
      users := map[];
    }

    /**
     * `POST /auth/usuarios`. The email is looked up first, so a known email
     * gets 409 whatever the password is; `bcrypt.hash` then throws on a
     * password that is not a string, which ends in the generic 500. An email
     * that is truthy but not a string also ends in that 500 (the user model,
     * which would cast it, is not part of this model).
     */
    method Register(body: Body, bcrypt: Bcrypt, salt: string, newId: ObjectId, storeUp: bool) returns (r: AuthReply)
      requires Valid()
      modifies this
      ensures Valid()
      ensures ReadCredentials(body).Missing? ==>
        r == Mensagem(400, CredentialsRequired) && users == old(users)
      ensures ReadCredentials(body).EmailNotText? || (ReadCredentials(body).Given? && !storeUp) ==>
        r == Erro(500, ServerError) && users == old(users)
      ensures ReadCredentials(body).Given? && storeUp ==>
        var c := ReadCredentials(body);
        if c.email in old(users) then
          r == Mensagem(409, EmailTaken) && users == old(users)
        else if !c.senha.Str? || IdTaken(old(users), newId) then
          r == Erro(500, ServerError) && users == old(users)
        else
          r == Mensagem(201, Registered)
          && users == old(users)[c.email := User(newId, c.email, bcrypt.hash(c.senha.s, SaltRounds, salt))]
    {
      var c := ReadCredentials(body);
      if c.Missing? {
        return Mensagem(400, CredentialsRequired);
      }
      if c.EmailNotText? || !storeUp {
        return Erro(500, ServerError);
      }
      if c.email in users {
        return Mensagem(409, EmailTaken);
      }
      if !c.senha.Str? {
        return Erro(500, ServerError);
      }
      if IdTaken(users, newId) {
        return Erro(500, ServerError);
      }
      var u := User(newId, c.email, bcrypt.hash(c.senha.s, SaltRounds, salt));
      AddKeepsConsistent(users, u);
      users := users[c.email := u];
      r := Mensagem(201, Registered);
    }
  }

  /** The payload `jwt.sign({ id: usuario._id, email: usuario.email }, SECRET, { expiresIn: '1h' })` signs at `now`. */
  function SessionClaims(u: User, now: nat): (c: Claims)
    ensures c.id == IdText(u.id) && c.email == u.email && c.exp == c.iat + OneHour
  {
    Claims(IdText(u.id), u.email, now, now + OneHour)
  }

  /**
   * `POST /auth/login`: a lookup and a comparison; the store is read, never
   * written. `bcrypt.compare` rejects a password that is not a string, which
   * ends in the generic 500; it is reached only for a known email.
   */
  function Login(users: map<string, User>, body: Body, bcrypt: Bcrypt, jwt: Jwt, now: nat, storeUp: bool): (r: AuthReply)
    ensures ReadCredentials(body).Missing? <==> r == Mensagem(400, CredentialsRequired)
    ensures r.Erro? <==>
      || ReadCredentials(body).EmailNotText?
      || (ReadCredentials(body).Given? && !storeUp)
      || (ReadCredentials(body).Given? && ReadCredentials(body).email in users && !ReadCredentials(body).senha.Str?)
    ensures r.Erro? ==> r == Erro(500, ServerError)
    ensures r.Session? <==>
      && ReadCredentials(body).Given? && storeUp
      && ReadCredentials(body).email in users
      && ReadCredentials(body).senha.Str?
      && bcrypt.compare(ReadCredentials(body).senha.s, users[ReadCredentials(body).email].senhaHash)
    ensures r.Session? ==>
      var u := users[ReadCredentials(body).email];
      r == Session(jwt.sign(SessionClaims(u, now)), u.email)
    ensures !ReadCredentials(body).Missing? && !r.Erro? && !r.Session? ==> r == Mensagem(401, BadCredentials)
  {
    var c := ReadCredentials(body);
    if c.Missing? then Mensagem(400, CredentialsRequired)
    else if c.EmailNotText? || !storeUp then Erro(500, ServerError)
    else if c.email !in users then Mensagem(401, BadCredentials)
    else
      var u := users[c.email];
      if !c.senha.Str? then Erro(500, ServerError)
      else if !bcrypt.compare(c.senha.s, u.senhaHash) then Mensagem(401, BadCredentials)
      else Session(jwt.sign(SessionClaims(u, now)), u.email)
  }

  // ---------------------------------------------------------------------
  // Properties
  // ---------------------------------------------------------------------

  /**
   * With a string password, an unknown email and a wrong password get the
   * same answer: both are 401 `Credenciais inválidas.`, whichever store and
   * library the server has.
   */
  lemma LoginIndistinguishable(
    a: map<string, User>, b: map<string, User>, body: Body, bcrypt: Bcrypt, jwt: Jwt, now: nat)
    requires ReadCredentials(body).Given? && ReadCredentials(body).senha.Str?
    requires ReadCredentials(body).email !in a
    requires ReadCredentials(body).email in b
    requires !bcrypt.compare(ReadCredentials(body).senha.s, b[ReadCredentials(body).email].senhaHash)
    ensures Login(a, body, bcrypt, jwt, now, true) == Login(b, body, bcrypt, jwt, now, true)
    ensures Login(a, body, bcrypt, jwt, now, true) == Mensagem(401, BadCredentials)
  {
  }

  /**
   * With a password that is not a string, such as a number, the answer tells
   * the two apart: an unknown email gets 401 and a known one gets 500.
   */
  lemma LoginRevealsKnownEmail(
    a: map<string, User>, b: map<string, User>, body: Body, bcrypt: Bcrypt, jwt: Jwt, now: nat)
    requires ReadCredentials(body).Given? && !ReadCredentials(body).senha.Str?
    requires ReadCredentials(body).email !in a
    requires ReadCredentials(body).email in b
    ensures Login(a, body, bcrypt, jwt, now, true) == Mensagem(401, BadCredentials)
    ensures Login(b, body, bcrypt, jwt, now, true) == Erro(500, ServerError)
  {
  }

  /** A concrete such body: `{"email": "a@b.c", "senha": 123}`. */
  lemma NumericPasswordBody()
    ensures var body: Body := [("email", Str("a@b.c")), ("senha", Num(123.0))];
      ReadCredentials(body) == Given("a@b.c", Num(123.0))
  {
    var body: Body := [("email", Str("a@b.c")), ("senha", Num(123.0))];
    assert body[1..][0].0 == "senha";
    assert Get(body, "email") == Some(Str("a@b.c"));
    assert Get(body, "senha") == Get(body[1..], "senha");
  }

  /** After a registration, the same email and password log in, with the new user's id and email. */
  lemma RegisteredUserLogsIn(
    users: map<string, User>, body: Body, bcrypt: Bcrypt, salt: string, newId: ObjectId, jwt: Jwt, now: nat)
    requires BcryptSound(bcrypt) && ReadCredentials(body).Given? && ReadCredentials(body).senha.Str?
    ensures var c := ReadCredentials(body);
      var u := User(newId, c.email, bcrypt.hash(c.senha.s, SaltRounds, salt));
      Login(users[c.email := u], body, bcrypt, jwt, now, true)
        == Session(jwt.sign(Claims(IdText(newId), c.email, now, now + OneHour)), c.email)
  {
    var c := ReadCredentials(body);
    assert bcrypt.compare(c.senha.s, bcrypt.hash(c.senha.s, SaltRounds, salt));
  }

  /**
   * The token of a successful login opens the protected routes for the
   * following hour, with the user's id and email as `req.usuario`.
   */
  lemma SessionAuthorizes(
    users: map<string, User>, body: Body, bcrypt: Bcrypt, jwt: Jwt, now: nat, later: nat)
    requires JwtSound(jwt) && Login(users, body, bcrypt, jwt, now, true).Session?
    requires now <= later < now + OneHour
    ensures var u := users[ReadCredentials(body).email];
      Authorize(Some("Bearer " + Login(users, body, bcrypt, jwt, now, true).token), jwt, later)
        == Proceed(Claims(IdText(u.id), u.email, now, now + OneHour))
  {
    var u := users[ReadCredentials(body).email];
    SignedTokenProceeds(jwt, SessionClaims(u, now), later);
  }

  /** The same token is refused from the end of that hour on. */
  lemma SessionExpires(
    users: map<string, User>, body: Body, bcrypt: Bcrypt, jwt: Jwt, now: nat, later: nat)
    requires JwtSound(jwt) && Login(users, body, bcrypt, jwt, now, true).Session?
    requires later >= now + OneHour
    ensures Authorize(Some("Bearer " + Login(users, body, bcrypt, jwt, now, true).token), jwt, later)
      == Refuse(403, BadToken)
  {
    var u := users[ReadCredentials(body).email];
    ExpiredTokenForbidden(jwt, SessionClaims(u, now), later);
  }
}

/**
 * The users router (app/routes/users.js): the bearer-token gate
 * `authenticateToken`, registration, login, and the protected `/:id`
 * routes. Token verification (`jwt.verify`), `User.authenticate` and the
 * database behind `User.findById`, `update` and `delete` are oracles.
 */
module UsersRoutes {
  import opened Wrappers
  import opened Js
  import opened Sql
  import opened Http

  /** The decoded payload of a verified token. */
  type Claims = map<string, Json>

  /**
   * `authHeader && authHeader.split(' ')[1]`: `undefined` without a header;
   * the empty header itself when it is empty (`""` is falsy, so `&&` yields
   * it); otherwise the second space-separated piece, if there is one.
   */
  function BearerToken(header: Option<string>): (token: Option<string>)
    ensures header.None? ==> token.None?
    ensures header == Some("") ==> token == Some("")
    ensures header.Some? && header.value != "" ==>
              (token.Some? <==> ' ' in header.value)
    ensures token.Some? ==> ' ' !in token.value
  {
    match header
    case None => None
    case Some(h) =>
      if h == "" then Some("")
      else
        var pieces := Split(h, ' ');
        if |pieces| >= 2 then Some(pieces[1]) else None
  }

  /**
   * Whatever word precedes the space, the token is the text after it: the
   * gate never checks that the scheme is `Bearer`. With an empty token
   * (`"Bearer "`) the result is the empty string, which is not `null`.
   */
  lemma AnySchemeCarriesToken(scheme: string, token: string)
    requires ' ' !in scheme && ' ' !in token
    ensures BearerToken(Some(scheme + " " + token)) == Some(token)
  {
    assert scheme + " " + token == scheme + [' '] + token;
    SplitAtSep(scheme, token, ' ');
    SplitWithoutSep(token, ' ');
  }

  datatype Gate =
    | Proceed(user: Claims, isAdmin: Option<Json>)  // `req.user`, `req.isAdmin`; `next()`
    | Stop(response: Response)                     // a status written; `next` not called

  /**
   * `authenticateToken`, with `verify` standing for `jwt.verify` under the
   * server's secret: no token is 401 without consulting the verifier, a
   * token that fails verification is 403, and a verified token attaches its
   * claims and their `isAdmin`.
   */
  function AuthenticateToken(header: Option<string>, verify: string -> Option<Claims>): (g: Gate)
    ensures BearerToken(header).None? <==> g == Stop(SendStatus(401))
    ensures g == Stop(SendStatus(403)) <==>
              BearerToken(header).Some? && verify(BearerToken(header).value).None?
    ensures g.Proceed? <==> BearerToken(header).Some? && verify(BearerToken(header).value).Some?
    ensures g.Proceed? ==>
              g.user == verify(BearerToken(header).value).value && g.isAdmin == Get(g.user, "isAdmin")
  {
    match BearerToken(header)
    case None => Stop(SendStatus(401))
    case Some(token) =>
      match verify(token)
      case None => Stop(SendStatus(403))
      case Some(claims) => Proceed(claims, Get(claims, "isAdmin"))
  }

  /** A header without a token never reaches the verifier: any two verifiers agree. */
  lemma NoTokenNoVerify(header: Option<string>, v1: string -> Option<Claims>, v2: string -> Option<Claims>)
    requires header.None? || (header.value != "" && ' ' !in header.value)
    ensures AuthenticateToken(header, v1) == AuthenticateToken(header, v2) == Stop(SendStatus(401))
  {
  }

  /** "Bearer " is passed to the verifier with the empty token; a rejection is 403, not 401. */
  lemma EmptyTokenIsVerified(verify: string -> Option<Claims>)
    requires verify("").None?
    ensures AuthenticateToken(Some("Bearer "), verify) == Stop(SendStatus(403))
  {
    AnySchemeCarriesToken("Bearer", "");
  }

  // ---------------------------------------------------------------------
  // Registration

  /** `{ ...req.body, is_admin: false }`: the override follows the spread, so it wins. */
  function RegisterData(body: Row): (data: Row)
    ensures "is_admin" in data && data["is_admin"] == JBool(false)
    ensures data - {"is_admin"} == body - {"is_admin"}
  {
    body["is_admin" := JBool(false)]
  }

  /** The columns `User.create` binds from its argument; `is_admin` is not one of them. */
  const CreateColumns: seq<string> :=
    ["first_name", "last_name", "email", "phone_id", "entrepreneur_id", "contributor_id"]

  /**
   * `User.create(userData)`: the listed columns are bound from the data
   * (absent ones as NULL) and `insert` stands for the database's answer.
   */
  function UserCreate(userData: Row, insert: Row -> Result<Row, string>): Result<Row, string>
  {
    insert(Project(userData, CreateColumns))
  }

  /** `User.create` reads only its listed columns: data that agree on them are created alike. */
  lemma UserCreateReadsListedColumns(a: Row, b: Row, insert: Row -> Result<Row, string>)
    requires forall c :: c in CreateColumns ==> Get(a, c) == Get(b, c)
    ensures UserCreate(a, insert) == UserCreate(b, insert)
  {
    forall c | c in CreateColumns
      ensures (if c in a then a[c] else JNull) == (if c in b then b[c] else JNull)
    {
      assert Get(a, c) == Get(b, c);
    }
    assert Project(a, CreateColumns) == Project(b, CreateColumns);
  }

  /** POST `/register`: 201 with the created row, or 400 with the error's message. */
  function Register(body: Row, insert: Row -> Result<Row, string>): (resp: Response)
    ensures resp.status == 201 <==> UserCreate(RegisterData(body), insert).Success?
    ensures resp.status == 201 ==> resp.body == JsonBody(JObj(UserCreate(RegisterData(body), insert).value))
    ensures resp.status != 201 ==> resp == Error(400, UserCreate(RegisterData(body), insert).error)
  {
    match UserCreate(RegisterData(body), insert)
    case Success(user) => Send(201, JObj(user))
    case Failure(m) => Error(400, m)
  }

  /**
   * Whatever `is_admin` a client sends — or none — registration behaves the
   * same: the body's own `is_admin` is always replaced by `false`.
   */
  lemma {:induction false} IsAdminCannotBeChosen(b1: Row, b2: Row, insert: Row -> Result<Row, string>)
    requires b1 - {"is_admin"} == b2 - {"is_admin"}
    ensures RegisterData(b1) == RegisterData(b2)
    ensures Register(b1, insert) == Register(b2, insert)
  {
    var d1, d2 := RegisterData(b1), RegisterData(b2);
    forall k | k in d1
      ensures k in d2 && d1[k] == d2[k]
    {
      if k != "is_admin" {
        assert k in b1 - {"is_admin"};
      }
    }
    forall k | k in d2
      ensures k in d1
    {
      if k != "is_admin" {
        assert k in b2 - {"is_admin"};
      }
    }
    assert d1 == d2;
  }

  // ---------------------------------------------------------------------
  // Login

  /** How the awaited `User.authenticate(email, password)` settled. */
  datatype AuthResult = Resolved(value: Option<Json>) | Rejected(message: string)

  /** `{ token: result.token }` for a truthy result; a missing token is left out when serialised. */
  function TokenBody(result: Json): Json
  {
    if result.JObj? && "token" in result.fields then JObj(map["token" := result.fields["token"]])
    else JObj(map[])
  }

  /**
   * POST `/login`: `authenticate` stands for `User.authenticate` applied to
   * the body's `email` and `password`.
   */
  function Login(body: Row, authenticate: (Option<Json>, Option<Json>) -> AuthResult): (resp: Response)
    ensures var a := authenticate(Get(body, "email"), Get(body, "password"));
            (resp.status == 200 <==> a.Resolved? && Truthy(a.value)) &&
            (resp.status == 401 <==> a.Resolved? && !Truthy(a.value)) &&
            (resp.status == 500 <==> a.Rejected?)
    ensures var a := authenticate(Get(body, "email"), Get(body, "password"));
            a.Resolved? && a.value.Some? && a.value.value.JObj? && "token" in a.value.value.fields ==>
              resp == Send(200, JObj(map["token" := a.value.value.fields["token"]]))
    ensures resp.status == 401 ==> resp == Error(401, "Invalid credentials")
  {
    match authenticate(Get(body, "email"), Get(body, "password"))
    case Resolved(result) =>
      if Truthy(result) then Send(200, TokenBody(result.value))
      else Error(401, "Invalid credentials")
    case Rejected(m) => Error(500, m)
  }

  // ---------------------------------------------------------------------
  // Protected routes

  /** A handler behind `authenticateToken`: it runs only when the gate proceeds. */
  function Guarded(g: Gate, handler: Response): (resp: Response)
    ensures g.Stop? ==> resp == g.response
    ensures g.Proceed? ==> resp == handler
  {
    match g
    case Stop(r) => r
    case Proceed(_, _) => handler
  }

  /** GET `/:id`: `find` stands for `User.findById` on the path parameter. */
  function GetUser(header: Option<string>, verify: string -> Option<Claims>,
                   id: string, find: string -> StoreReply): (resp: Response)
    ensures AuthenticateToken(header, verify).Stop? ==> resp == AuthenticateToken(header, verify).response
    ensures AuthenticateToken(header, verify).Proceed? ==> resp == GetReply(find(id), "User")
  {
    Guarded(AuthenticateToken(header, verify), GetReply(find(id), "User"))
  }

  /** PUT `/:id`: `update` stands for `User.update` on the path parameter and the body. */
  function PutUser(header: Option<string>, verify: string -> Option<Claims>,
                   id: string, body: Row, update: (string, Row) -> StoreReply): (resp: Response)
    ensures AuthenticateToken(header, verify).Stop? ==> resp == AuthenticateToken(header, verify).response
    ensures AuthenticateToken(header, verify).Proceed? ==> resp == PutReply(update(id, body), "User")
  {
    Guarded(AuthenticateToken(header, verify), PutReply(update(id, body), "User"))
  }

  /** DELETE `/:id`: `remove` stands for `User.delete` on the path parameter. */
  function DeleteUser(header: Option<string>, verify: string -> Option<Claims>,
                      id: string, remove: string -> StoreReply): (resp: Response)
    ensures AuthenticateToken(header, verify).Stop? ==> resp == AuthenticateToken(header, verify).response
    ensures AuthenticateToken(header, verify).Proceed? ==> resp == DeleteReply(remove(id), "User")
  {
    Guarded(AuthenticateToken(header, verify), DeleteReply(remove(id), "User"))
  }

  /**
   * No ownership check: whoever the verified claims name, every caller with
   * a valid token gets the same answer for the same id.
   */
  lemma NoOwnershipCheck(header: Option<string>, v1: string -> Option<Claims>, v2: string -> Option<Claims>,
                         id: string, body: Row, find: string -> StoreReply,
                         update: (string, Row) -> StoreReply, remove: string -> StoreReply)
    requires AuthenticateToken(header, v1).Proceed? && AuthenticateToken(header, v2).Proceed?
    ensures GetUser(header, v1, id, find) == GetUser(header, v2, id, find)
    ensures PutUser(header, v1, id, body, update) == PutUser(header, v2, id, body, update)
    ensures DeleteUser(header, v1, id, remove) == DeleteUser(header, v2, id, remove)
  {
  }

  /** A missing user is 404 "User not found" on all three routes. */
  lemma MissingUserIs404(header: Option<string>, verify: string -> Option<Claims>,
                         id: string, body: Row, find: string -> StoreReply,
                         update: (string, Row) -> StoreReply, remove: string -> StoreReply)
    requires AuthenticateToken(header, verify).Proceed?
    requires find(id).Missing? && update(id, body).Missing? && remove(id).Missing?
    ensures GetUser(header, verify, id, find) == Error(404, "User not found")
    ensures PutUser(header, verify, id, body, update) == Error(404, "User not found")
    ensures DeleteUser(header, verify, id, remove) == Error(404, "User not found")
  {
    assert "User" + " not found" == "User not found";
  }
}

/** The authentication routes: registration, login, and the two TOTP routes.
    zod's email check, bcrypt, `jwt.sign` and speakeasy's TOTP check are
    oracles passed in as functions. A `None` body field is one that is absent
    or not a string; `rol` keeps those two cases apart, because zod's default
    applies only to an absent field. */
module Auth {
  import opened Common
  import opened Strings
  import opened Users
  import opened AuthRole

  /** A body field that may be absent, a string, or some other JSON value
      (`null`, a number, an object). */
  datatype Field = Absent | Str(s: string) | NotString

  datatype RegisterInput = RegisterInput(
    nombre: Option<string>, email: Option<string>, telefono: Option<string>,
    password: Option<string>, rol: Field)

  /** What `registerSchema.parse` returns. */
  datatype RegisterData = RegisterData(
    nombre: string, email: string, telefono: string, password: string, rol: string)

  datatype LoginInput = LoginInput(email: Option<string>, password: Option<string>)

  /** The payload the routes sign: `{ id, email }`. */
  datatype TokenClaims = TokenClaims(id: int, email: string)

  datatype RegisterReply = Created(id: nat, email: string) | RegisterFailure(status: int, message: string)

  datatype LoginReply =
    | LoggedIn(token: string, rol: string, nombre: string, email: string)
    | Require2FA(email: string, message: string)
    | LoginFailure(status: int, message: string)

  datatype SetupReply = Setup(secret: string, message: string) | SetupFailure(status: int, message: string)

  datatype VerifyReply = Verified(token: string) | VerifyFailure(status: int, message: string)

  predicate ValidRol(rol: string)
  {
    rol == "viajero" || rol == "conductor" || rol == "ambos"
  }

  /** `registerSchema.parse`: every field a string of the minimum length, a
      well-formed email, and a role from the enumeration; `.default` turns
      only an absent role into `"viajero"`, so `null` or a number fails. */
  function ParseRegister(v: RegisterInput, isEmail: string -> bool): (r: Option<RegisterData>)
    ensures r.Some? <==>
              && v.nombre.Some? && |v.nombre.value| >= 2
              && v.email.Some? && isEmail(v.email.value)
              && v.telefono.Some? && |v.telefono.value| >= 7
              && v.password.Some? && |v.password.value| >= 4
              && (v.rol.Absent? || (v.rol.Str? && ValidRol(v.rol.s)))
    ensures v.rol.NotString? ==> r.None?
    ensures r.Some? ==>
              && r.value.nombre == v.nombre.value && r.value.email == v.email.value
              && r.value.telefono == v.telefono.value && r.value.password == v.password.value
              && r.value.rol == (if v.rol.Absent? then "viajero" else v.rol.s)
              && ValidRol(r.value.rol)
  {
    if v.nombre.Some? && |v.nombre.value| >= 2
       && v.email.Some? && isEmail(v.email.value)
       && v.telefono.Some? && |v.telefono.value| >= 7
       && v.password.Some? && |v.password.value| >= 4
       && (v.rol.Absent? || (v.rol.Str? && ValidRol(v.rol.s)))
    then Some(RegisterData(v.nombre.value, v.email.value, v.telefono.value, v.password.value,
                           if v.rol.Absent? then "viajero" else v.rol.s))
    else None
  }

  /** `loginSchema.parse`. */
  predicate LoginValid(v: LoginInput, isEmail: string -> bool)
  {
    v.email.Some? && isEmail(v.email.value) && v.password.Some? && |v.password.value| >= 4
  }

  /** POST `/login`. `compare(plain, stored)` is bcrypt's check and `sign`
      is `jwt.sign` with the server's secret. */
  function Login(rows: seq<Usuario>, v: LoginInput, isEmail: string -> bool,
                 compare: (string, string) -> bool, sign: TokenClaims -> string): (r: LoginReply)
    ensures !LoginValid(v, isEmail) <==> r == LoginFailure(400, "Datos inválidos")
    ensures r == LoginFailure(401, "Credenciales inválidas") <==>
              LoginValid(v, isEmail) &&
              (FindByEmail(rows, v.email.value).None? ||
               !compare(v.password.value, rows[FindByEmail(rows, v.email.value).value].password))
    ensures r.Require2FA? ==>
              LoginValid(v, isEmail) && r.email == v.email.value &&
              exists k :: 0 <= k < |rows| && rows[k].email == v.email.value && Truthy(rows[k].secret2FA) &&
                          compare(v.password.value, rows[k].password)
    ensures r.LoggedIn? ==>
              LoginValid(v, isEmail) && r.email == v.email.value &&
              exists k :: 0 <= k < |rows| && rows[k].email == v.email.value && !Truthy(rows[k].secret2FA) &&
                          compare(v.password.value, rows[k].password) &&
                          r.token == sign(TokenClaims(rows[k].id, rows[k].email)) &&
                          r.rol == rows[k].rol && r.nombre == rows[k].nombre
    ensures LoginValid(v, isEmail) && FindByEmail(rows, v.email.value).Some? &&
            compare(v.password.value, rows[FindByEmail(rows, v.email.value).value].password) ==>
              var u := rows[FindByEmail(rows, v.email.value).value];
              (Truthy(u.secret2FA) ==> r == Require2FA(u.email, "Se requiere código 2FA")) &&
              (!Truthy(u.secret2FA) ==> r == LoggedIn(sign(TokenClaims(u.id, u.email)), u.rol, u.nombre, u.email))
  {
    if !LoginValid(v, isEmail) then LoginFailure(400, "Datos inválidos")
    else match FindByEmail(rows, v.email.value)
      case None => LoginFailure(401, "Credenciales inválidas")
      case Some(k) =>
        var u := rows[k];
        if !compare(v.password.value, u.password) then LoginFailure(401, "Credenciales inválidas")
        else if Truthy(u.secret2FA) then Require2FA(u.email, "Se requiere código 2FA")
        else LoggedIn(sign(TokenClaims(u.id, u.email)), u.rol, u.nombre, u.email)
  }

  /** An unknown email and a wrong password cannot be told apart: both get
      the same reply. */
  lemma UnknownAndWrongPasswordAlike(rows: seq<Usuario>, email: string, p1: string, p2: string,
                                     rows': seq<Usuario>, isEmail: string -> bool,
                                     compare: (string, string) -> bool, sign: TokenClaims -> string)
    requires isEmail(email) && |p1| >= 4 && |p2| >= 4
    requires FindByEmail(rows, email).None?
    requires FindByEmail(rows', email).Some? && !compare(p2, rows'[FindByEmail(rows', email).value].password)
    ensures Login(rows, LoginInput(Some(email), Some(p1)), isEmail, compare, sign)
         == Login(rows', LoginInput(Some(email), Some(p2)), isEmail, compare, sign)
  {
  }

  /** POST `/verify-2fa`: `totp(secret, token)` is speakeasy's check
      with a window of one step. An absent body email makes the lookup
      throw. */
  function Verify2FA(rows: seq<Usuario>, email: Option<string>, token: Option<string>,
                     totp: (string, Option<string>) -> bool, sign: TokenClaims -> string): (r: VerifyReply)
    ensures email.None? <==> r == VerifyFailure(500, "Error verificando código")
    ensures r == VerifyFailure(400, "2FA no configurado") <==>
              email.Some? &&
              (FindByEmail(rows, email.value).None? || !Truthy(rows[FindByEmail(rows, email.value).value].secret2FA))
    ensures r == VerifyFailure(401, "Código inválido o expirado") <==>
              email.Some? && FindByEmail(rows, email.value).Some? &&
              var u := rows[FindByEmail(rows, email.value).value];
              Truthy(u.secret2FA) && !totp(u.secret2FA.value, token)
    ensures r.Verified? ==>
              exists k :: 0 <= k < |rows| && Some(rows[k].email) == email && Truthy(rows[k].secret2FA) &&
                          totp(rows[k].secret2FA.value, token) &&
                          r.token == sign(TokenClaims(rows[k].id, rows[k].email))
    ensures email.Some? && FindByEmail(rows, email.value).Some? ==>
              var u := rows[FindByEmail(rows, email.value).value];
              Truthy(u.secret2FA) && totp(u.secret2FA.value, token) ==>
                r == Verified(sign(TokenClaims(u.id, u.email)))
  {
    if email.None? then VerifyFailure(500, "Error verificando código")
    else match FindByEmail(rows, email.value)
      case None => VerifyFailure(400, "2FA no configurado")
      case Some(k) =>
        var u := rows[k];
        if !Truthy(u.secret2FA) then VerifyFailure(400, "2FA no configurado")
        else if !totp(u.secret2FA.value, token) then VerifyFailure(401, "Código inválido o expirado")
        else Verified(sign(TokenClaims(u.id, u.email)))
  }

  /** The tokens `/login` and `/verify-2fa` hand out carry no `rol`: when
      `verify` decodes a signed payload to those same claims, any route behind
      `auth(role)` with a non-empty role refuses the bearer with 403. */
  lemma SignedTokenDeniedByRole(c: TokenClaims, role: string,
                                sign: TokenClaims -> string, verify: string -> Option<Claims>)
    requires ' ' !in sign(c) && role != ""
    requires verify(sign(c)) == Some(Claims(c.id, c.email, None))
    ensures Authorize(Some("Bearer " + sign(c)), Some(role), verify) == Respond(403, "Acceso denegado")
  {
    BearerHeaderToken(sign(c));
  }

  /** The claims the routes would have to sign for `auth(role)` to admit a
      user of that role. */
  function ClaimsWithRol(u: Usuario): (c: Claims)
    ensures c.id == u.id && c.email == u.email && c.rol == Some(u.rol)
  {
    Claims(u.id, u.email, Some(u.rol))
  }

  /** With the user's `rol` in the payload, `auth(rol)` admits that user and
      hands the route exactly those claims. */
  lemma RolClaimsAdmitted(u: Usuario, token: string, verify: string -> Option<Claims>)
    requires ' ' !in token && u.rol != ""
    requires verify(token) == Some(ClaimsWithRol(u))
    ensures Authorize(Some("Bearer " + token), Some(u.rol), verify) == Next(ClaimsWithRol(u))
  {
    BearerHeaderToken(token);
  }

  /** GET `/generate-2fa/:email`: store a freshly generated secret
      (`secret`) on that user only. */
  method Generate2FA(db: Usuarios, email: string, secret: string) returns (r: SetupReply)
    requires db.Valid()
    modifies db`rows
    ensures db.Valid()
    ensures FindByEmail(old(db.rows), email).None? ==>
              r == SetupFailure(404, "Usuario no encontrado") && db.rows == old(db.rows)
    ensures FindByEmail(old(db.rows), email).Some? ==>
              var i := FindByEmail(old(db.rows), email).value;
              db.rows == old(db.rows)[i := old(db.rows)[i].(secret2FA := Some(secret))] &&
              r == Setup(secret, "Escanea el código QR con Google Authenticator o Authy")
  {
    var found := FindByEmail(db.rows, email);
    if found.None? {
      return SetupFailure(404, "Usuario no encontrado");
    }
    db.UpdateRow(found.value, db.rows[found.value].(secret2FA := Some(secret)));
    r := Setup(secret, "Escanea el código QR con Google Authenticator o Authy");
  }

  /** After `/generate-2fa` a correct password no longer yields a token:
      login asks for the code instead. */
  lemma LoginAfterSetupRequires2FA(rows: seq<Usuario>, i: nat, secret: string, v: LoginInput,
                                   isEmail: string -> bool, compare: (string, string) -> bool,
                                   sign: TokenClaims -> string)
    requires i < |rows| && secret != ""
    requires LoginValid(v, isEmail) && FindByEmail(rows, v.email.value) == Some(i)
    requires compare(v.password.value, rows[i].password)
    ensures Login(rows[i := rows[i].(secret2FA := Some(secret))], v, isEmail, compare, sign)
         == Require2FA(v.email.value, "Se requiere código 2FA")
  {
    var after := rows[i := rows[i].(secret2FA := Some(secret))];
    assert forall k :: 0 <= k < |rows| ==> after[k].email == rows[k].email;
    FindByEmailSameEmails(rows, after, v.email.value);
  }

  /** POST `/register`. `hash` is bcrypt; `defaults` supplies the columns the
      route does not write, and the id is the table's next one. */
  method Register(db: Usuarios, v: RegisterInput, isEmail: string -> bool,
                  hash: string -> string, defaults: Usuario) returns (r: RegisterReply)
    requires db.Valid()
    modifies db
    ensures db.Valid()
    ensures ParseRegister(v, isEmail).None? ==>
              r == RegisterFailure(400, "Datos inválidos") && db.rows == old(db.rows) && db.nextId == old(db.nextId)
    ensures ParseRegister(v, isEmail).Some? && FindByEmail(old(db.rows), v.email.value).Some? ==>
              r == RegisterFailure(400, "Email ya registrado") && db.rows == old(db.rows) && db.nextId == old(db.nextId)
    ensures ParseRegister(v, isEmail).Some? && FindByEmail(old(db.rows), v.email.value).None? ==>
              var d := ParseRegister(v, isEmail).value;
              db.rows == old(db.rows) + [NewUser(old(db.nextId), d, hash, defaults)] &&
              db.nextId == old(db.nextId) + 1 &&
              r == Created(old(db.nextId), d.email)
  {
    var parsed := ParseRegister(v, isEmail);
    if parsed.None? {
      return RegisterFailure(400, "Datos inválidos");
    }
    var d := parsed.value;
    var exists_ := FindByEmail(db.rows, d.email);
    if exists_.Some? {
      return RegisterFailure(400, "Email ya registrado");
    }
    var u := NewUser(db.nextId, d, hash, defaults);
    db.rows := db.rows + [u];
    db.nextId := db.nextId + 1;
    r := Created(u.id, u.email);
  }

  /** The row `create({ data: { ...data, password: hash } })` inserts. */
  function NewUser(id: nat, d: RegisterData, hash: string -> string, defaults: Usuario): (u: Usuario)
    ensures u.id == id && u.nombre == d.nombre && u.email == d.email && u.telefono == d.telefono
    ensures u.password == hash(d.password) && u.rol == d.rol
    ensures u.secret2FA == defaults.secret2FA && u.wallet == defaults.wallet
    ensures u.estadoValidacion == defaults.estadoValidacion && u.docs == defaults.docs
  {
    defaults.(id := id, nombre := d.nombre, email := d.email, telefono := d.telefono,
              password := hash(d.password), rol := d.rol)
  }

  /** A registered user can log in with the password they chose whenever
      bcrypt's check accepts its own hash, and, without a stored secret, gets
      a token for their own id. */
  lemma RegisterThenLogin(rows: seq<Usuario>, id: nat, d: RegisterData, hash: string -> string,
                          defaults: Usuario, isEmail: string -> bool,
                          compare: (string, string) -> bool, sign: TokenClaims -> string)
    requires FindByEmail(rows, d.email).None?
    requires isEmail(d.email) && |d.password| >= 4
    requires compare(d.password, hash(d.password))
    requires !Truthy(defaults.secret2FA)
    ensures Login(rows + [NewUser(id, d, hash, defaults)], LoginInput(Some(d.email), Some(d.password)),
                  isEmail, compare, sign)
         == LoggedIn(sign(TokenClaims(id, d.email)), d.rol, d.nombre, d.email)
  {
    FindByEmailAppend(rows, NewUser(id, d, hash, defaults));
  }

  /** A lookup of a new email finds the appended row. */
  lemma {:induction false} FindByEmailAppend(rows: seq<Usuario>, u: Usuario)
    requires FindByEmail(rows, u.email).None?
    ensures FindByEmail(rows + [u], u.email) == Some(|rows|)
    decreases |rows|
  {
    if |rows| > 0 {
      assert (rows + [u])[1..] == rows[1..] + [u];
      FindByEmailAppend(rows[1..], u);
    }
  }
}

/**
 * The request handlers: token issuance, local login, registration, Google sign-in,
 * veterinarian and appointment creation, and the two routes that put the gates in
 * front of the last two.
 */
module App {
  import opened Wrappers
  import opened Schema
  import opened External
  import opened Http
  import opened Db
  import opened MiddlewareAuth

  /** `expiresIn: "7d"`, in seconds. */
  const SevenDays: nat := 7 * 24 * 60 * 60

  const UsuarioNoEncontrado: string := "Usuario no encontrado"
  const ContrasenaIncorrecta: string := "Contraseña incorrecta"
  const CamposObligatorios: string := "Todos los campos son obligatorios"
  const CorreoRegistrado: string := "Ese correo ya está registrado"
  const UsuarioRegistrado: string := "Usuario registrado correctamente"
  const ErrorServidor: string := "Error en el servidor"
  const ErrorCrearVeterinario: string := "Error al crear veterinario"
  const FaltanDatos: string := "Faltan datos para crear la cita"
  const CitaCreada: string := "Cita creada correctamente"
  const ErrorCrearCita: string := "Error al crear cita"

  /** `generarToken(user)`: signs `{ id, email }` for seven days. */
  function GenerarToken(sign: Signer, user: User): (token: string)
    ensures token == sign(SignRequest(Claims(user.id, user.email), 604800))
  {
    sign(SignRequest(Claims(user.id, user.email), SevenDays))
  }

  /**
   * A token issued for a user, presented as `Bearer <token>`, reaches `jwt.verify` intact
   * and decodes to exactly that user's id and email, whenever `verify` accepts what `sign`
   * produced.
   */
  lemma IssuedTokenAuthenticates(sign: Signer, verify: TokenVerifier, user: User)
    requires forall s :: verify(sign(s)) == Decoded(s.payload)
    ensures verify(StripBearer(BearerPrefix + GenerarToken(sign, user))) == Decoded(Claims(user.id, user.email))
  {
    StripBearerHeader(GenerarToken(sign, user));
  }

  /** `roles[0]?.nombre || "CLIENTE"`: the first resolved name unless absent or empty. */
  function PrimaryRole(names: seq<string>): (rol: string)
    ensures rol == Cliente || (names != [] && rol == names[0])
    ensures names != [] && names[0] != "" ==> rol == names[0]
    ensures names != [] && names[0] == "" ==> rol == Cliente
    ensures names == [] ==> rol == Cliente
  {
    if names != [] && names[0] != "" then names[0] else Cliente
  }

  /**
   * `POST /api/auth/login-admin`. Only `local` users are searched; a missing one answers
   * 400 "Usuario no encontrado", a rejected password 400 "Contraseña incorrecta", a
   * comparison bcrypt refuses (no password given or stored) or a failing store 500.
   * Success returns the row, a token for it and its primary role. The store is only read.
   */
  method LoginAdmin(db: Store, compare: Comparer, sign: Signer, email: Option<string>, password: Option<string>)
    returns (r: Response)
    ensures !db.online ==> r == Reply(500, ErrorInterno)
    ensures db.online && WhereEmailLocal(db.usuarios, email) == [] ==> r == Reply(400, UsuarioNoEncontrado)
    ensures db.online && WhereEmailLocal(db.usuarios, email) != [] ==>
              var user := WhereEmailLocal(db.usuarios, email)[0];
              if password.None? || user.password.None? then r == Reply(500, ErrorInterno)
              else if !compare(password.value, user.password.value) then r == Reply(400, ContrasenaIncorrecta)
              else r == Response(200, true, None, Some(user), Some(GenerarToken(sign, user)),
                                 Some(PrimaryRole(RoleNames(db.roles, db.usuariosRoles, user.id))), None)
    ensures r.ok <==> r.token.Some?
    ensures r.ok ==>
              && r.user.Some? && r.user.value in db.usuarios
              && r.user.value.proveedor == Local && email == Some(r.user.value.email)
              && r.user.value.password.Some? && password.Some?
              && compare(password.value, r.user.value.password.value)
              && r.token == Some(sign(SignRequest(Claims(r.user.value.id, r.user.value.email), SevenDays)))
              && r.rol.Some?
              && (r.rol.value == Cliente || r.rol.value in RoleNames(db.roles, db.usuariosRoles, r.user.value.id))
    ensures db.online && (forall u :: u in db.usuarios && email == Some(u.email) ==> u.proveedor == Google) ==>
              r == Reply(400, UsuarioNoEncontrado)
  {
    if !db.online {
      return Reply(500, ErrorInterno);
    }
    var rows := WhereEmailLocal(db.usuarios, email);
    if |rows| == 0 {
      return Reply(400, UsuarioNoEncontrado);
    }
    var user := rows[0];
    assert user in rows;
    if password.None? || user.password.None? {
      return Reply(500, ErrorInterno);
    }
    var passwordValida := compare(password.value, user.password.value);
    if !passwordValida {
      return Reply(400, ContrasenaIncorrecta);
    }
    var rol := PrimaryRole(RoleNames(db.roles, db.usuariosRoles, user.id));
    var token := GenerarToken(sign, user);
    r := Response(200, true, None, Some(user), Some(token), Some(rol), None);
  }

  /** The body of `POST /api/auth/register` passes the `!nombre || !email || !password` test. */
  predicate RegisterFieldsPresent(nombre: Option<string>, email: Option<string>, password: Option<string>) {
    Truthy(nombre) && Truthy(email) && Truthy(password)
  }

  /**
   * `POST /api/auth/register`. Missing fields, a failing store and a taken email (under
   * any provider) answer without touching the store. Otherwise a `local` user with the
   * password's digest is inserted, then one link row to the CLIENTE role; no token is
   * issued. Without a CLIENTE role the handler fails with 500 AFTER the user row is in.
   */
  method Register(db: Store, hash: Hasher, nombre: Option<string>, email: Option<string>, password: Option<string>)
    returns (r: Response)
    requires db.Valid()
    modifies db`usuarios, db`nextUsuarioId, db`usuariosRoles
    ensures db.Valid()
    ensures r.token == None && r.user == None && r.rol == None
    ensures !RegisterFieldsPresent(nombre, email, password) ==>
              r == Reply(200, CamposObligatorios) && unchanged(db)
    ensures RegisterFieldsPresent(nombre, email, password) && !db.online ==>
              r == Reply(500, ErrorServidor) && unchanged(db)
    ensures RegisterFieldsPresent(nombre, email, password) && db.online && WhereEmail(old(db.usuarios), email.value) != [] ==>
              r == Reply(200, CorreoRegistrado) && unchanged(db)
    ensures RegisterFieldsPresent(nombre, email, password) && db.online && WhereEmail(old(db.usuarios), email.value) == [] ==>
              var id := old(db.nextUsuarioId);
              && db.usuarios == old(db.usuarios) + [User(id, nombre.value, email.value, Some(hash(password.value)), None, Local)]
              && db.nextUsuarioId == id + 1
              && (match RoleIdByName(db.roles, Cliente)
                  case None =>
                    r == Reply(500, ErrorServidor) && db.usuariosRoles == old(db.usuariosRoles)
                  case Some(rolId) =>
                    && r == Response(200, true, Some(UsuarioRegistrado), None, None, None, None)
                    && db.usuariosRoles == old(db.usuariosRoles) + [UserRole(id, rolId)]
                    && RoleNames(db.roles, db.usuariosRoles, id) == [Cliente])
    ensures r.ok <==> RegisterFieldsPresent(nombre, email, password) && db.online
                      && WhereEmail(old(db.usuarios), email.value) == [] && RoleIdByName(db.roles, Cliente).Some?
    ensures old(db.EveryUserHasRole()) && RoleIdByName(db.roles, Cliente).Some? ==> db.EveryUserHasRole()
    ensures !r.ok && db.usuarios != old(db.usuarios) ==> r == Reply(500, ErrorServidor) && !db.EveryUserHasRole()
  {
    if !RegisterFieldsPresent(nombre, email, password) {
      return Reply(200, CamposObligatorios);
    }
    if !db.online {
      return Reply(500, ErrorServidor);
    }
    var existe := WhereEmail(db.usuarios, email.value);
    if |existe| > 0 {
      return Reply(200, CorreoRegistrado);
    }
    var digest := hash(password.value);
    var nuevoId := db.InsertUsuario(nombre.value, email.value, Some(digest), None, Local);
    var rolCliente := RoleIdByName(db.roles, Cliente);
    if rolCliente.None? {
      NewUserUnlinked(db, nuevoId);
      return Reply(500, ErrorServidor);
    }
    db.InsertUsuarioRol(nuevoId, rolCliente.value);
    FirstGrant(db.roles, old(db.usuariosRoles), nuevoId, rolCliente.value, Cliente);
    LinkedKeepsEveryUserHasRole(db, old(db.usuarios), old(db.usuariosRoles), nuevoId, rolCliente.value);
    r := Response(200, true, Some(UsuarioRegistrado), None, None, None, None);
  }

  /** A user just inserted under a fresh id has no link row yet, so not every user has a role. */
  lemma NewUserUnlinked(db: Store, id: nat)
    requires db.Valid()
    requires db.usuarios != [] && db.usuarios[|db.usuarios| - 1].id == id
    requires forall k :: 0 <= k < |db.usuariosRoles| ==> db.usuariosRoles[k].usuarioId != id
    ensures !db.EveryUserHasRole()
  {
  }

  /**
   * Appending one user and one link row for that user keeps "every user has a role"
   * when it held before.
   */
  lemma LinkedKeepsEveryUserHasRole(db: Store, oldUsuarios: seq<User>, oldLinks: seq<UserRole>, id: nat, rolId: nat)
    requires db.usuariosRoles == oldLinks + [UserRole(id, rolId)]
    requires |db.usuarios| == |oldUsuarios| + 1 && db.usuarios[..|oldUsuarios|] == oldUsuarios
    requires db.usuarios[|oldUsuarios|].id == id
    ensures (forall i :: 0 <= i < |oldUsuarios| ==> Linked(oldLinks, oldUsuarios[i].id)) ==> db.EveryUserHasRole()
  {
  }

  /** The success answer of `POST /api/auth/google` for a user row: a token for it, role CLIENTE. */
  function GoogleSession(sign: Signer, user: User): Response {
    Response(200, true, None, Some(user), Some(GenerarToken(sign, user)), Some(Cliente), None)
  }

  /**
   * `POST /api/auth/google`. The credential is verified first; any failure after that,
   * a failing store or a missing CLIENTE role included, falls into the same catch and
   * answers 401 "Token inválido". A known email (under any provider) reuses its row and
   * inserts nothing; a new one inserts a password-less `google` user and one CLIENTE link.
   * The reported role is always CLIENTE, whatever the user's roles are.
   */
  method LoginGoogle(db: Store, verifyIdToken: IdTokenVerifier, sign: Signer, credential: Option<string>)
    returns (r: Response)
    requires db.Valid()
    modifies db`usuarios, db`nextUsuarioId, db`usuariosRoles
    ensures db.Valid()
    ensures r.ok ==> r.rol == Some(Cliente)
    ensures !r.ok ==> r == Reply(401, TokenInvalido)
    ensures credential.None? || verifyIdToken(credential.value).TicketRejected? || !db.online ==>
              r == Reply(401, TokenInvalido) && unchanged(db)
    ensures credential.Some? && verifyIdToken(credential.value).Ticket? && db.online ==>
              var ticket := verifyIdToken(credential.value);
              var rows := WhereEmail(old(db.usuarios), ticket.email);
              if rows != [] then
                unchanged(db) && r == GoogleSession(sign, rows[0])
              else
                var user := User(old(db.nextUsuarioId), ticket.name, ticket.email, None, ticket.picture, Google);
                && db.usuarios == old(db.usuarios) + [user]
                && db.nextUsuarioId == user.id + 1
                && (match RoleIdByName(db.roles, Cliente)
                    case None =>
                      r == Reply(401, TokenInvalido) && db.usuariosRoles == old(db.usuariosRoles)
                    case Some(rolId) =>
                      && r == GoogleSession(sign, user)
                      && db.usuariosRoles == old(db.usuariosRoles) + [UserRole(user.id, rolId)]
                      && RoleNames(db.roles, db.usuariosRoles, user.id) == [Cliente])
    ensures r.ok ==> r.user.Some? && r.user.value in db.usuarios
                     && r.token == Some(sign(SignRequest(Claims(r.user.value.id, r.user.value.email), SevenDays)))
    ensures old(db.EveryUserHasRole()) && RoleIdByName(db.roles, Cliente).Some? ==> db.EveryUserHasRole()
    ensures |db.usuarios| <= |old(db.usuarios)| + 1 && |db.usuariosRoles| <= |old(db.usuariosRoles)| + 1
    ensures !r.ok && db.usuarios != old(db.usuarios) ==> !db.EveryUserHasRole()
  {
    if credential.None? {
      return Reply(401, TokenInvalido);
    }
    var ticket := verifyIdToken(credential.value);
    if ticket.TicketRejected? || !db.online {
      return Reply(401, TokenInvalido);
    }
    var rows := WhereEmail(db.usuarios, ticket.email);
    var user;
    if |rows| > 0 {
      user := rows[0];
      assert user in rows;
    } else {
      var linked;
      user, linked := InsertGoogleUser(db, ticket);
      if !linked {
        return Reply(401, TokenInvalido);
      }
    }
    r := GoogleSession(sign, user);
  }

  /**
   * The new-email branch of `POST /api/auth/google`: a password-less `google` user with
   * the ticket's name, email and picture is inserted, then one link row to CLIENTE. The
   * user row stays even when no CLIENTE role exists, and that user then has no role.
   */
  method InsertGoogleUser(db: Store, ticket: Ticket) returns (user: User, linked: bool)
    requires db.Valid() && ticket.Ticket? && WhereEmail(db.usuarios, ticket.email) == []
    modifies db`usuarios, db`nextUsuarioId, db`usuariosRoles
    ensures db.Valid()
    ensures user == User(old(db.nextUsuarioId), ticket.name, ticket.email, None, ticket.picture, Google)
    ensures db.usuarios == old(db.usuarios) + [user] && db.nextUsuarioId == user.id + 1
    ensures linked <==> RoleIdByName(db.roles, Cliente).Some?
    ensures match RoleIdByName(db.roles, Cliente)
            case None =>
              db.usuariosRoles == old(db.usuariosRoles) && !db.EveryUserHasRole()
            case Some(rolId) =>
              && db.usuariosRoles == old(db.usuariosRoles) + [UserRole(user.id, rolId)]
              && RoleNames(db.roles, db.usuariosRoles, user.id) == [Cliente]
    ensures old(db.EveryUserHasRole()) && linked ==> db.EveryUserHasRole()
  {
    var insertId := db.InsertUsuario(ticket.name, ticket.email, None, ticket.picture, Google);
    user := User(insertId, ticket.name, ticket.email, None, ticket.picture, Google);
    var rolCliente := RoleIdByName(db.roles, Cliente);
    if rolCliente.None? {
      NewUserUnlinked(db, insertId);
      return user, false;
    }
    db.InsertUsuarioRol(user.id, rolCliente.value);
    FirstGrant(db.roles, old(db.usuariosRoles), user.id, rolCliente.value, Cliente);
    LinkedKeepsEveryUserHasRole(db, old(db.usuarios), old(db.usuariosRoles), user.id, rolCliente.value);
    linked := true;
  }

  /**
   * `POST /api/veterinarios` after its gates. The linked user's name and email are copied
   * into the new row; an unknown `usuario_id` answers "Usuario no encontrado" and a failing
   * store 500, both without inserting.
   */
  method CrearVeterinario(db: Store, usuarioId: Option<int>, especialidad: Option<string>, telefono: Option<string>)
    returns (r: Response)
    requires db.Valid()
    modifies db`veterinarios, db`nextVeterinarioId
    ensures db.Valid()
    ensures !db.online ==> r == Reply(500, ErrorCrearVeterinario) && unchanged(db)
    ensures db.online && WhereId(db.usuarios, usuarioId) == [] ==>
              r == Reply(200, UsuarioNoEncontrado) && unchanged(db)
    ensures db.online && WhereId(db.usuarios, usuarioId) != [] ==>
              var user := WhereId(db.usuarios, usuarioId)[0];
              var id := old(db.nextVeterinarioId);
              && db.veterinarios == old(db.veterinarios)
                                    + [Veterinario(id, user.id, user.nombre, user.email, especialidad, telefono)]
              && db.nextVeterinarioId == id + 1
              && r == Response(200, true, None, None, None, None, Some(id))
    ensures r.ok <==> db.veterinarios != old(db.veterinarios)
    ensures r.ok ==> exists u :: u in db.usuarios && usuarioId == Some(u.id as int)
                                && db.veterinarios[|db.veterinarios| - 1].nombre == u.nombre
                                && db.veterinarios[|db.veterinarios| - 1].email == u.email
  {
    if !db.online {
      return Reply(500, ErrorCrearVeterinario);
    }
    var rows := WhereId(db.usuarios, usuarioId);
    if |rows| == 0 {
      return Reply(200, UsuarioNoEncontrado);
    }
    var user := rows[0];
    assert user in rows;
    var insertId := db.InsertVeterinario(user.id, user.nombre, user.email, especialidad, telefono);
    r := Response(200, true, None, None, None, None, Some(insertId));
  }

  /** The body of `POST /api/cliente/citas` passes its four truthiness tests. */
  predicate CitaFieldsPresent(mascotaId: Option<int>, veterinarioId: Option<int>, fecha: Option<string>, motivo: Option<string>) {
    TruthyNumber(mascotaId) && TruthyNumber(veterinarioId) && Truthy(fecha) && Truthy(motivo)
  }

  /**
   * `POST /api/cliente/citas` after its gate. Any missing (or zero, or empty) field
   * answers "Faltan datos para crear la cita" without inserting; otherwise one row in
   * state PENDIENTE is inserted.
   */
  method CrearCita(db: Store, mascotaId: Option<int>, veterinarioId: Option<int>, fecha: Option<string>, motivo: Option<string>)
    returns (r: Response)
    requires db.Valid()
    modifies db`citas, db`nextCitaId
    ensures db.Valid()
    ensures !CitaFieldsPresent(mascotaId, veterinarioId, fecha, motivo) ==>
              r == Reply(200, FaltanDatos) && unchanged(db)
    ensures CitaFieldsPresent(mascotaId, veterinarioId, fecha, motivo) && !db.online ==>
              r == Reply(500, ErrorCrearCita) && unchanged(db)
    ensures CitaFieldsPresent(mascotaId, veterinarioId, fecha, motivo) && db.online ==>
              var id := old(db.nextCitaId);
              && db.citas == old(db.citas) + [Cita(id, mascotaId.value, veterinarioId.value, fecha.value, motivo.value, Pendiente)]
              && db.nextCitaId == id + 1
              && r == Response(200, true, Some(CitaCreada), None, None, None, Some(id))
    ensures r.ok <==> db.citas != old(db.citas)
  {
    if !CitaFieldsPresent(mascotaId, veterinarioId, fecha, motivo) {
      return Reply(200, FaltanDatos);
    }
    if !db.online {
      return Reply(500, ErrorCrearCita);
    }
    var insertId := db.InsertCita(mascotaId.value, veterinarioId.value, fecha.value, motivo.value, Pendiente);
    r := Response(200, true, Some(CitaCreada), None, None, None, Some(insertId));
  }

  /** The claims the bearer gate would attach for this request's header, if it has one. */
  function PresentedClaims(verify: TokenVerifier, authorization: Option<string>): Option<Claims> {
    if !Truthy(authorization) then None
    else match verify(StripBearer(authorization.value))
         case Decoded(claims) => Some(claims)
         case Invalid => None
  }

  /**
   * `app.post("/api/veterinarios", verificarToken, verificarRol("ADMIN"), ...)`. No header
   * answers 401 "Token no enviado", a rejected token 401 "Token inválido", a subject the
   * store does not grant ADMIN 403, a failing store 500; in all of these nothing is
   * inserted. A veterinarian is inserted only for a subject holding ADMIN.
   */
  method PostVeterinarios(db: Store, req: Request, verify: TokenVerifier,
                          usuarioId: Option<int>, especialidad: Option<string>, telefono: Option<string>)
    returns (r: Response)
    requires db.Valid()
    modifies req`user, db`veterinarios, db`nextVeterinarioId
    ensures db.Valid()
    ensures !Truthy(req.authorization) ==> r == Reply(401, TokenNoEnviado) && unchanged(db)
    ensures Truthy(req.authorization) && PresentedClaims(verify, req.authorization).None? ==>
              r == Reply(401, TokenInvalido) && unchanged(db)
    ensures PresentedClaims(verify, req.authorization).Some? && !db.online ==>
              r == Reply(500, ErrorInterno) && unchanged(db)
    ensures PresentedClaims(verify, req.authorization).Some? && db.online
            && !Granted(db.roles, db.usuariosRoles, PresentedClaims(verify, req.authorization).value.id, Admin) ==>
              r == Reply(403, SinPermisos) && unchanged(db)
    ensures db.veterinarios != old(db.veterinarios) ==>
              && PresentedClaims(verify, req.authorization).Some?
              && Granted(db.roles, db.usuariosRoles, PresentedClaims(verify, req.authorization).value.id, Admin)
    ensures PresentedClaims(verify, req.authorization).Some? && db.online
            && Granted(db.roles, db.usuariosRoles, PresentedClaims(verify, req.authorization).value.id, Admin) ==>
              if WhereId(db.usuarios, usuarioId) == [] then
                r == Reply(200, UsuarioNoEncontrado) && unchanged(db)
              else
                var user := WhereId(db.usuarios, usuarioId)[0];
                var id := old(db.nextVeterinarioId);
                && db.veterinarios == old(db.veterinarios)
                                      + [Veterinario(id, user.id, user.nombre, user.email, especialidad, telefono)]
                && db.nextVeterinarioId == id + 1
                && r == Response(200, true, None, None, None, None, Some(id))
    ensures req.user == (if PresentedClaims(verify, req.authorization).Some? then PresentedClaims(verify, req.authorization)
                         else old(req.user))
  {
    var o := VerificarToken(req, verify);
    if o.Halt? {
      return o.response;
    }
    o := VerificarRol(db, Admin, req);
    if o.Halt? {
      return o.response;
    }
    r := CrearVeterinario(db, usuarioId, especialidad, telefono);
  }

  /**
   * `app.post("/api/cliente/citas", verificarToken, ...)`: any authenticated subject may
   * create an appointment for any pet and any veterinarian, since nothing relates the
   * body's `mascota_id` to `req.user`; without a usable token nothing is inserted.
   */
  method PostCitas(db: Store, req: Request, verify: TokenVerifier,
                   mascotaId: Option<int>, veterinarioId: Option<int>, fecha: Option<string>, motivo: Option<string>)
    returns (r: Response)
    requires db.Valid()
    modifies req`user, db`citas, db`nextCitaId
    ensures db.Valid()
    ensures !Truthy(req.authorization) ==> r == Reply(401, TokenNoEnviado) && unchanged(db)
    ensures Truthy(req.authorization) && PresentedClaims(verify, req.authorization).None? ==>
              r == Reply(401, TokenInvalido) && unchanged(db)
    ensures db.citas != old(db.citas) ==> PresentedClaims(verify, req.authorization).Some?
    ensures PresentedClaims(verify, req.authorization).Some? && !CitaFieldsPresent(mascotaId, veterinarioId, fecha, motivo) ==>
              r == Reply(200, FaltanDatos) && unchanged(db)
    ensures PresentedClaims(verify, req.authorization).Some? && CitaFieldsPresent(mascotaId, veterinarioId, fecha, motivo)
            && !db.online ==>
              r == Reply(500, ErrorCrearCita) && unchanged(db)
    ensures PresentedClaims(verify, req.authorization).Some? && CitaFieldsPresent(mascotaId, veterinarioId, fecha, motivo)
            && db.online ==>
              var id := old(db.nextCitaId);
              && db.citas == old(db.citas) + [Cita(id, mascotaId.value, veterinarioId.value, fecha.value, motivo.value, Pendiente)]
              && db.nextCitaId == id + 1
              && r == Response(200, true, Some(CitaCreada), None, None, None, Some(id))
    ensures req.user == (if PresentedClaims(verify, req.authorization).Some? then PresentedClaims(verify, req.authorization)
                         else old(req.user))
  {
    var o := VerificarToken(req, verify);
    if o.Halt? {
      return o.response;
    }
    r := CrearCita(db, mascotaId, veterinarioId, fecha, motivo);
  }
}

/**
 * The rows of the credential and clinic tables (usuarios, roles, usuarios_roles,
 * veterinarios, citas) and the read-only SQL statements the handlers issue against
 * them, as pure functions over the table contents in row order.
 */
module Schema {
  import opened Wrappers

  /** The `proveedor` column: how the account authenticates. */
  datatype Provider = Local | Google

  /** A row of `usuarios`. `password` holds the bcrypt digest; federated users have none. */
  datatype User = User(id: nat, nombre: string, email: string, password: Option<string>,
                       fotoPerfil: Option<string>, proveedor: Provider)

  /** A row of `roles`. */
  datatype Role = Role(id: nat, nombre: string)

  /** A row of the join table `usuarios_roles`. */
  datatype UserRole = UserRole(usuarioId: nat, rolId: nat)

  /** A row of `veterinarios`: `nombre` and `email` are copied from the linked user. */
  datatype Veterinario = Veterinario(id: nat, usuarioId: nat, nombre: string, email: string,
                                     especialidad: Option<string>, telefono: Option<string>)

  /** A row of `citas`. */
  datatype Cita = Cita(id: nat, mascotaId: int, veterinarioId: int, fecha: string,
                       motivo: string, estado: string)

  const Cliente: string := "CLIENTE"
  const Admin: string := "ADMIN"
  const Pendiente: string := "PENDIENTE"

  /** `SELECT * FROM usuarios WHERE email = ?`, in table order. */
  function WhereEmail(us: seq<User>, email: string): (rows: seq<User>)
    ensures forall u :: u in rows <==> u in us && u.email == email
    ensures |rows| <= |us|
  {
    if us == [] then []
    else (if us[0].email == email then [us[0]] else []) + WhereEmail(us[1..], email)
  }

  /**
   * `SELECT * FROM usuarios WHERE email = ? AND proveedor = 'local'`. An absent email is
   * bound as NULL, which equals nothing.
   */
  function WhereEmailLocal(us: seq<User>, email: Option<string>): (rows: seq<User>)
    ensures forall u :: u in rows <==> u in us && email == Some(u.email) && u.proveedor == Local
  {
    if us == [] then []
    else (if email == Some(us[0].email) && us[0].proveedor == Local then [us[0]] else [])
         + WhereEmailLocal(us[1..], email)
  }

  /** `SELECT nombre, email FROM usuarios WHERE id = ?`; an absent id is bound as NULL. */
  function WhereId(us: seq<User>, id: Option<int>): (rows: seq<User>)
    ensures forall u :: u in rows <==> u in us && id == Some(u.id as int)
  {
    if us == [] then []
    else (if id == Some(us[0].id as int) then [us[0]] else []) + WhereId(us[1..], id)
  }

  /** `roles.id` is the table's key. */
  ghost predicate RoleIdsDistinct(roles: seq<Role>) {
    forall i, j :: 0 <= i < j < |roles| ==> roles[i].id != roles[j].id
  }

  /** `SELECT id FROM roles WHERE nombre = ?`, first row: the id of the first role so named. */
  function RoleIdByName(roles: seq<Role>, nombre: string): (r: Option<nat>)
    ensures r.None? <==> forall j :: 0 <= j < |roles| ==> roles[j].nombre != nombre
    ensures r.Some? ==> Role(r.value, nombre) in roles
  {
    if roles == [] then None
    else if roles[0].nombre == nombre then Some(roles[0].id)
    else RoleIdByName(roles[1..], nombre)
  }

  /** The names of the roles whose id is `rolId` (the `JOIN roles r ON ur.rol_id = r.id` part). */
  function NamesWithId(roles: seq<Role>, rolId: nat): (names: seq<string>)
    ensures forall n :: n in names <==> Role(rolId, n) in roles
  {
    if roles == [] then []
    else (if roles[0].id == rolId then [roles[0].nombre] else []) + NamesWithId(roles[1..], rolId)
  }

  /**
   * `SELECT r.nombre FROM usuarios_roles ur JOIN roles r ON ur.rol_id = r.id
   *  WHERE ur.usuario_id = ?`, in the order of the join table's rows.
   */
  function RoleNames(roles: seq<Role>, links: seq<UserRole>, usuarioId: nat): (names: seq<string>)
    ensures forall n :: n in names ==> exists r :: r in roles && r.nombre == n
  {
    if links == [] then []
    else (if links[0].usuarioId == usuarioId then NamesWithId(roles, links[0].rolId) else [])
         + RoleNames(roles, links[1..], usuarioId)
  }

  /** The user has at least one `usuarios_roles` row. */
  ghost predicate Linked(links: seq<UserRole>, usuarioId: nat) {
    exists rolId :: UserRole(usuarioId, rolId) in links
  }

  /** The relational meaning of the join: some link row of the user points at a role so named. */
  ghost predicate Granted(roles: seq<Role>, links: seq<UserRole>, usuarioId: nat, nombre: string) {
    exists rolId :: UserRole(usuarioId, rolId) in links && Role(rolId, nombre) in roles
  }

  /** A name is among the resolved roles exactly when the tables grant it. */
  lemma {:induction false} RoleNamesJoin(roles: seq<Role>, links: seq<UserRole>, usuarioId: nat, nombre: string)
    ensures nombre in RoleNames(roles, links, usuarioId) <==> Granted(roles, links, usuarioId, nombre)
  {
    if links != [] {
      RoleNamesJoin(roles, links[1..], usuarioId, nombre);
      var head := if links[0].usuarioId == usuarioId then NamesWithId(roles, links[0].rolId) else [];
      assert RoleNames(roles, links, usuarioId) == head + RoleNames(roles, links[1..], usuarioId);
      if Granted(roles, links, usuarioId, nombre) {
        var rolId :| UserRole(usuarioId, rolId) in links && Role(rolId, nombre) in roles;
        if links[0] != UserRole(usuarioId, rolId) {
          assert UserRole(usuarioId, rolId) in links[1..];
        }
      }
      if nombre in head {
        assert UserRole(usuarioId, links[0].rolId) == links[0];
      }
      if Granted(roles, links[1..], usuarioId, nombre) {
        var rolId :| UserRole(usuarioId, rolId) in links[1..] && Role(rolId, nombre) in roles;
        assert UserRole(usuarioId, rolId) in links;
      }
    }
  }

  /** Appending a link row adds that row's role names at the end, and only for its user. */
  lemma {:induction false} RoleNamesAppend(roles: seq<Role>, links: seq<UserRole>, link: UserRole, usuarioId: nat)
    ensures RoleNames(roles, links + [link], usuarioId)
         == RoleNames(roles, links, usuarioId)
            + (if link.usuarioId == usuarioId then NamesWithId(roles, link.rolId) else [])
  {
    if links != [] {
      assert (links + [link])[1..] == links[1..] + [link];
      RoleNamesAppend(roles, links[1..], link, usuarioId);
    }
  }

  /** A user with no link rows resolves to no roles. */
  lemma {:induction false} RoleNamesUnlinked(roles: seq<Role>, links: seq<UserRole>, usuarioId: nat)
    requires forall k :: 0 <= k < |links| ==> links[k].usuarioId != usuarioId
    ensures RoleNames(roles, links, usuarioId) == []
  {
    if links != [] {
      RoleNamesUnlinked(roles, links[1..], usuarioId);
    }
  }

  /** An id that no role carries joins to no name. */
  lemma {:induction false} NamesWithIdAbsent(roles: seq<Role>, rolId: nat)
    requires forall j :: 0 <= j < |roles| ==> roles[j].id != rolId
    ensures NamesWithId(roles, rolId) == []
  {
    if roles != [] {
      NamesWithIdAbsent(roles[1..], rolId);
    }
  }

  /** With `roles.id` a key, an id names exactly one role. */
  lemma {:induction false} NamesWithKey(roles: seq<Role>, rolId: nat, nombre: string)
    requires RoleIdsDistinct(roles)
    requires Role(rolId, nombre) in roles
    ensures NamesWithId(roles, rolId) == [nombre]
  {
    if roles[0].id == rolId {
      forall j | 1 <= j < |roles| ensures roles[j].id != rolId {
        assert roles[0].id != roles[j].id;
      }
      assert roles[0] == Role(rolId, nombre) by {
        var j :| 0 <= j < |roles| && roles[j] == Role(rolId, nombre);
        if j != 0 { assert roles[0].id != roles[j].id; }
      }
      NamesWithIdAbsent(roles[1..], rolId);
    } else {
      assert Role(rolId, nombre) in roles[1..];
      NamesWithKey(roles[1..], rolId, nombre);
    }
  }

  /**
   * The first link row of a user who had none makes that role the user's only role:
   * this is how registration and federated sign-up leave a new account.
   */
  lemma {:induction false} FirstGrant(roles: seq<Role>, links: seq<UserRole>, usuarioId: nat, rolId: nat, nombre: string)
    requires RoleIdsDistinct(roles)
    requires Role(rolId, nombre) in roles
    requires forall k :: 0 <= k < |links| ==> links[k].usuarioId != usuarioId
    ensures RoleNames(roles, links + [UserRole(usuarioId, rolId)], usuarioId) == [nombre]
  {
    RoleNamesAppend(roles, links, UserRole(usuarioId, rolId), usuarioId);
    RoleNamesUnlinked(roles, links, usuarioId);
    NamesWithKey(roles, rolId, nombre);
  }

  /**
   * Granting a role takes effect at once for the user it names, and changes nothing for
   * any other user.
   */
  lemma {:induction false} GrantFlips(roles: seq<Role>, links: seq<UserRole>, usuarioId: nat, rolId: nat, nombre: string, other: nat)
    requires Role(rolId, nombre) in roles
    requires other != usuarioId
    ensures Granted(roles, links + [UserRole(usuarioId, rolId)], usuarioId, nombre)
    ensures RoleNames(roles, links + [UserRole(usuarioId, rolId)], other) == RoleNames(roles, links, other)
  {
    assert UserRole(usuarioId, rolId) in links + [UserRole(usuarioId, rolId)];
    RoleNamesAppend(roles, links, UserRole(usuarioId, rolId), other);
  }
}

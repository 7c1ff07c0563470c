/**
 * The in-memory credential and clinic store: the tables the handlers read and insert
 * into, with MySQL's AUTO_INCREMENT counters, and whether the connection pool answers
 * queries at all.
 */
module Db {
  import opened Wrappers
  import opened Schema

  class Store {
    var usuarios: seq<User>
    var roles: seq<Role>
    var usuariosRoles: seq<UserRole>
    var veterinarios: seq<Veterinario>
    var citas: seq<Cita>
    var nextUsuarioId: nat
    var nextVeterinarioId: nat
    var nextCitaId: nat
    /** False when every query fails (a connection or pool error). */
    var online: bool

    /**
     * The table invariants: keys below their counters and distinct, email unique across
     * providers, every link row pointing below the user counter, role ids a key.
     */
    ghost predicate Valid()
      reads this
    {
      && (forall i :: 0 <= i < |usuarios| ==> usuarios[i].id < nextUsuarioId)
      && (forall i, j :: 0 <= i < j < |usuarios| ==>
            usuarios[i].id != usuarios[j].id && usuarios[i].email != usuarios[j].email)
      && (forall k :: 0 <= k < |usuariosRoles| ==> usuariosRoles[k].usuarioId < nextUsuarioId)
      && RoleIdsDistinct(roles)
      && (forall i :: 0 <= i < |veterinarios| ==> veterinarios[i].id < nextVeterinarioId)
      && (forall i, j :: 0 <= i < j < |veterinarios| ==> veterinarios[i].id != veterinarios[j].id)
      && (forall i :: 0 <= i < |citas| ==> citas[i].id < nextCitaId)
      && (forall i, j :: 0 <= i < j < |citas| ==> citas[i].id != citas[j].id)
    }

    /** Every user has at least one `usuarios_roles` row. */
    ghost predicate EveryUserHasRole()
      reads this
    {
      forall i :: 0 <= i < |usuarios| ==> Linked(usuariosRoles, usuarios[i].id)
    }

    /** A store holding only the given roles. */
    constructor (roles: seq<Role>, online: bool)
      requires RoleIdsDistinct(roles)
      ensures Valid() && EveryUserHasRole()
      ensures this.roles == roles && this.online == online
      ensures usuarios == [] && usuariosRoles == [] && veterinarios == [] && citas == []
      ensures nextUsuarioId == 1 && nextVeterinarioId == 1 && nextCitaId == 1
    {
      this.roles := roles;
      this.online := online;
      usuarios, usuariosRoles, veterinarios, citas := [], [], [], [];
      nextUsuarioId, nextVeterinarioId, nextCitaId := 1, 1, 1;
    }

    /** `INSERT INTO usuarios ...`: appends a row under the next id and returns that id. */
    method InsertUsuario(nombre: string, email: string, password: Option<string>,
                         fotoPerfil: Option<string>, proveedor: Provider) returns (insertId: nat)
      requires Valid()
      requires WhereEmail(usuarios, email) == []
      modifies this`usuarios, this`nextUsuarioId
      ensures Valid()
      ensures insertId == old(nextUsuarioId) && nextUsuarioId == insertId + 1
      ensures usuarios == old(usuarios) + [User(insertId, nombre, email, password, fotoPerfil, proveedor)]
    {
      insertId := nextUsuarioId;
      usuarios := usuarios + [User(insertId, nombre, email, password, fotoPerfil, proveedor)];
      nextUsuarioId := nextUsuarioId + 1;
    }

    /** `INSERT INTO usuarios_roles (usuario_id, rol_id) ...`. */
    method InsertUsuarioRol(usuarioId: nat, rolId: nat)
      requires Valid()
      requires usuarioId < nextUsuarioId
      modifies this`usuariosRoles
      ensures Valid()
      ensures usuariosRoles == old(usuariosRoles) + [UserRole(usuarioId, rolId)]
    {
      usuariosRoles := usuariosRoles + [UserRole(usuarioId, rolId)];
    }

    /** `INSERT INTO veterinarios ...`: appends a row under the next id and returns that id. */
    method InsertVeterinario(usuarioId: nat, nombre: string, email: string,
                             especialidad: Option<string>, telefono: Option<string>) returns (insertId: nat)
      requires Valid()
      modifies this`veterinarios, this`nextVeterinarioId
      ensures Valid()
      ensures insertId == old(nextVeterinarioId) && nextVeterinarioId == insertId + 1
      ensures veterinarios == old(veterinarios) + [Veterinario(insertId, usuarioId, nombre, email, especialidad, telefono)]
    {
      insertId := nextVeterinarioId;
      veterinarios := veterinarios + [Veterinario(insertId, usuarioId, nombre, email, especialidad, telefono)];
      nextVeterinarioId := nextVeterinarioId + 1;
    }

    /** `INSERT INTO citas ...`: appends a row under the next id and returns that id. */
    method InsertCita(mascotaId: int, veterinarioId: int, fecha: string, motivo: string, estado: string)
      returns (insertId: nat)
      requires Valid()
      modifies this`citas, this`nextCitaId
      ensures Valid()
      ensures insertId == old(nextCitaId) && nextCitaId == insertId + 1
      ensures citas == old(citas) + [Cita(insertId, mascotaId, veterinarioId, fecha, motivo, estado)]
    {
      insertId := nextCitaId;
      citas := citas + [Cita(insertId, mascotaId, veterinarioId, fecha, motivo, estado)];
      nextCitaId := nextCitaId + 1;
    }
  }
}

/**
 * End-to-end uses of the handlers and gates on a fresh store holding the roles ADMIN
 * and CLIENTE, proved from the handlers' contracts alone.
 */
module Scenarios {
  import opened Wrappers
  import opened Schema
  import opened External
  import opened Http
  import opened Db
  import opened MiddlewareAuth
  import opened App

  const Roles: seq<Role> := [Role(1, Admin), Role(2, Cliente)]

  /** A fresh store in which Ana has registered herself with password "p1". */
  method AnaRegistered(hash: Hasher) returns (db: Store, registered: Response)
    ensures fresh(db) && db.Valid() && db.online && db.roles == Roles
    ensures registered == Response(200, true, Some(UsuarioRegistrado), None, None, None, None)
    ensures db.usuarios == [User(1, "Ana", "a@x.com", Some(hash("p1")), None, Local)]
    ensures db.usuariosRoles == [UserRole(1, 2)] && db.veterinarios == []
    ensures db.nextUsuarioId == 2
  {
    db := new Store(Roles, true);
    assert RoleIdByName(Roles, Cliente) == Some(2);
    assert RegisterFieldsPresent(Some("Ana"), Some("a@x.com"), Some("p1"));
    registered := Register(db, hash, Some("Ana"), Some("a@x.com"), Some("p1"));
  }

  /**
   * A self-registered client can log in with the password it chose and is reported as
   * CLIENTE; the token it receives is the one issued for its row.
   */
  method RegisterThenLogin(hash: Hasher, compare: Comparer, sign: Signer)
    returns (registered: Response, login: Response)
    requires forall p :: compare(p, hash(p))
    ensures registered.ok
    ensures login.ok && login.rol == Some(Cliente)
    ensures login.token == Some(GenerarToken(sign, User(1, "Ana", "a@x.com", Some(hash("p1")), None, Local)))
  {
    var db;
    db, registered := AnaRegistered(hash);
    var ana := User(1, "Ana", "a@x.com", Some(hash("p1")), None, Local);
    assert WhereEmailLocal(db.usuarios, Some("a@x.com")) == [ana];
    RoleNamesJoin(db.roles, db.usuariosRoles, 1, Cliente);
    login := LoginAdmin(db, compare, sign, Some("a@x.com"), Some("p1"));
  }

  /**
   * The token issued to a self-registered client opens the bearer gate but not an
   * ADMIN-only route: creating a veterinarian answers 403 and inserts nothing.
   */
  method ClientDeniedAdminRoute(hash: Hasher, sign: Signer, verify: TokenVerifier)
    returns (denied: Response, veterinarios: nat)
    requires forall s :: verify(sign(s)) == Decoded(s.payload)
    ensures denied == Reply(403, SinPermisos)
    ensures veterinarios == 0
  {
    var db, _ := AnaRegistered(hash);
    var ana := User(1, "Ana", "a@x.com", Some(hash("p1")), None, Local);
    IssuedTokenAuthenticates(sign, verify, ana);
    var req := new Request(Some(BearerPrefix + GenerarToken(sign, ana)));
    assert PresentedClaims(verify, req.authorization) == Some(Claims(1, "a@x.com"));
    assert !Granted(db.roles, db.usuariosRoles, 1, Admin) by {
      RoleNamesJoin(db.roles, db.usuariosRoles, 1, Admin);
    }
    denied := PostVeterinarios(db, req, verify, Some(1), Some("Felinos"), None);
    veterinarios := |db.veterinarios|;
  }

  /**
   * Signing in with Google twice under the same email creates one user and one role row
   * the first time and reuses them the second time; both answers carry the same user.
   */
  method GoogleTwice(verifyIdToken: IdTokenVerifier, sign: Signer, credential: string)
    returns (first: Response, second: Response, users: nat, links: nat)
    requires verifyIdToken(credential).Ticket?
    ensures first.ok && second.ok && first.user == second.user
    ensures users == 1 && links == 1
  {
    var db := new Store(Roles, true);
    first := LoginGoogle(db, verifyIdToken, sign, Some(credential));
    var ticket := verifyIdToken(credential);
    var user := User(1, ticket.name, ticket.email, None, ticket.picture, Google);
    assert db.usuarios == [user];
    assert WhereEmail(db.usuarios, ticket.email) == [user];
    second := LoginGoogle(db, verifyIdToken, sign, Some(credential));
    users, links := |db.usuarios|, |db.usuariosRoles|;
  }

  /** A second self-registration on Ana's store is given the next id, 2. */
  method TwoRegistrations(hash: Hasher) returns (second: Response, ids: seq<nat>)
    ensures second.ok
    ensures ids == [1, 2]
  {
    var db, _ := AnaRegistered(hash);
    assert WhereEmail(db.usuarios, "b@x.com") == [];
    assert RoleIdByName(db.roles, Cliente) == Some(2);
    assert RegisterFieldsPresent(Some("Bea"), Some("b@x.com"), Some("p2"));
    second := Register(db, hash, Some("Bea"), Some("b@x.com"), Some("p2"));
    ids := [db.usuarios[0].id, db.usuarios[1].id];
  }

  /**
   * Google sign-in of a new email on a store with no CLIENTE role answers 401 but keeps
   * the inserted user row, which then has no role.
   */
  method GoogleWithoutClienteRole(verifyIdToken: IdTokenVerifier, sign: Signer, credential: string)
    returns (db: Store, r: Response)
    requires verifyIdToken(credential).Ticket?
    ensures r == Reply(401, TokenInvalido)
    ensures |db.usuarios| == 1 && !db.EveryUserHasRole()
  {
    db := new Store([Role(1, Admin)], true);
    assert RoleIdByName(db.roles, Cliente) == None;
    r := LoginGoogle(db, verifyIdToken, sign, Some(credential));
  }
}

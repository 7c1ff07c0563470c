/**
 * The two request-pipeline gates: `verificarToken` (bearer header present, token
 * verified, claims attached to the request) and `verificarRol` (the subject holds a
 * named role according to the store).
 */
module MiddlewareAuth {
  import opened Wrappers
  import opened Schema
  import opened External
  import opened Http
  import Db

  /** The parts of an incoming request the gates look at and set. */
  class Request {
    /** `req.headers["authorization"]`. */
    var authorization: Option<string>
    /** `req.user`, set by `verificarToken`. */
    var user: Option<Claims>

    constructor (authorization: Option<string>)
      ensures this.authorization == authorization && user == None
    {
      this.authorization := authorization;
      user := None;
    }
  }

  const BearerPrefix: string := "Bearer "
  const TokenNoEnviado: string := "Token no enviado"
  const SinPermisos: string := "No tienes permisos para esta acción"

  /** `pat` occurs in `s` starting at index `k`. */
  predicate OccursAt(s: string, pat: string, k: int) {
    0 <= k && k + |pat| <= |s| && s[k..k + |pat|] == pat
  }

  /** `s.indexOf(pat, from)`: the first occurrence at or after `from`, if any. */
  function IndexOfFrom(s: string, pat: string, from: nat): (r: Option<nat>)
    decreases |s| - from
    ensures r.Some? ==> from <= r.value && OccursAt(s, pat, r.value)
    ensures r.Some? ==> forall k :: from <= k < r.value ==> !OccursAt(s, pat, k)
    ensures r.None? ==> forall k :: from <= k ==> !OccursAt(s, pat, k)
  {
    if from + |pat| > |s| then None
    else if s[from..from + |pat|] == pat then Some(from)
    else IndexOfFrom(s, pat, from + 1)
  }

  /**
   * `s.replace(pat, rep)` with a string pattern: only the FIRST occurrence, wherever it
   * is, is replaced; without one, `s` is returned unchanged. `rep` is inserted literally:
   * the `$&`, dollar-backtick, `$'` and `$$` patterns JavaScript expands in a replacement
   * string are not interpreted (the one use here replaces with the empty string).
   */
  function ReplaceFirst(s: string, pat: string, rep: string): (r: string)
    ensures (forall k :: !OccursAt(s, pat, k)) ==> r == s
    ensures forall i :: OccursAt(s, pat, i) && (forall k :: 0 <= k < i ==> !OccursAt(s, pat, k)) ==>
              r == s[..i] + rep + s[i + |pat|..]
  {
    match IndexOfFrom(s, pat, 0)
    case None => s
    case Some(i) => s[..i] + rep + s[i + |pat|..]
  }

  /** `header.replace("Bearer ", "")`: the token handed to `jwt.verify`. */
  function StripBearer(header: string): (token: string)
    ensures (forall k :: !OccursAt(header, BearerPrefix, k)) ==> token == header
    ensures forall i :: OccursAt(header, BearerPrefix, i)
                        && (forall k :: 0 <= k < i ==> !OccursAt(header, BearerPrefix, k)) ==>
              token == header[..i] + header[i + |BearerPrefix|..]
  {
    ReplaceFirst(header, BearerPrefix, "")
  }

  /** The well-formed header `Bearer <token>` yields exactly `<token>`. */
  lemma StripBearerHeader(token: string)
    ensures StripBearer(BearerPrefix + token) == token
  {
  }

  /** The removal is not anchored at the start: a "Bearer " later in the header is removed too. */
  lemma StripBearerUnanchored()
    ensures StripBearer("Token Bearer abc") == "Token abc"
  {
    var h := "Token Bearer abc";
    assert OccursAt(h, BearerPrefix, 6);
    forall k | 0 <= k < 6 ensures !OccursAt(h, BearerPrefix, k) {
      assert h[k..k + |BearerPrefix|][0] == h[k] != BearerPrefix[0];
    }
    assert h[..6] + h[13..] == "Token abc";
  }

  /**
   * `verificarToken`. A missing or empty header answers 401 "Token no enviado"; otherwise
   * the stripped token goes to `verify`, whose claims become `req.user` before `next()`,
   * and whose failure answers 401 "Token inválido". `req.user` changes only on success.
   */
  method VerificarToken(req: Request, verify: TokenVerifier) returns (o: Outcome)
    modifies req`user
    ensures !Truthy(req.authorization) ==>
              o == Halt(Reply(401, TokenNoEnviado)) && req.user == old(req.user)
    ensures Truthy(req.authorization) ==>
              match verify(StripBearer(req.authorization.value))
              case Decoded(claims) => o == Next && req.user == Some(claims)
              case Invalid => o == Halt(Reply(401, TokenInvalido)) && req.user == old(req.user)
  {
    if !Truthy(req.authorization) {
      return Halt(Reply(401, TokenNoEnviado));
    }
    var token := StripBearer(req.authorization.value);
    var decoded := verify(token);
    match decoded
    case Decoded(claims) =>
      req.user := Some(claims);
      o := Next;
    case Invalid =>
      o := Halt(Reply(401, TokenInvalido));
  }

  /**
   * The gate built by `verificarRol(rolNecesario)`. It passes exactly when the store
   * answers and grants that role name, compared exactly, to `req.user.id`; the claims'
   * email plays no part. A role not granted answers 403; no `req.user` (it is read as
   * `req.user.id`) or a failing query answers 500.
   */
  function VerificarRol(db: Db.Store, rolNecesario: string, req: Request): (o: Outcome)
    reads db, req
    ensures o == Next <==>
              db.online && req.user.Some? && Granted(db.roles, db.usuariosRoles, req.user.value.id, rolNecesario)
    ensures o == Halt(Reply(403, SinPermisos)) <==>
              db.online && req.user.Some? && !Granted(db.roles, db.usuariosRoles, req.user.value.id, rolNecesario)
    ensures o == Halt(Reply(500, ErrorInterno)) <==> !db.online || req.user.None?
  {
    if req.user.None? || !db.online then Halt(Reply(500, ErrorInterno))
    else
      var roles := RoleNames(db.roles, db.usuariosRoles, req.user.value.id);
      RoleNamesJoin(db.roles, db.usuariosRoles, req.user.value.id, rolNecesario);
      if rolNecesario in roles then Next else Halt(Reply(403, SinPermisos))
  }

  /** The role decision reads the subject id only: requests agreeing on it get the same answer. */
  lemma VerificarRolIgnoresEmail(db: Db.Store, rolNecesario: string, a: Request, b: Request)
    requires a.user.Some? && b.user.Some? && a.user.value.id == b.user.value.id
    ensures VerificarRol(db, rolNecesario, a) == VerificarRol(db, rolNecesario, b)
  {
  }
}

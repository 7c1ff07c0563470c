# Veterinary clinic backend: authentication and authorization core

This project is a Dafny model of the part of the veterinary-clinic backend that decides
who may do what. It covers:

- local login (`/api/auth/login-admin`);
- self-registration (`/api/auth/register`);
- Google sign-in (`/api/auth/google`);
- session-token issuance (`generarToken`);
- the bearer-token gate (`verificarToken`) and the role gate (`verificarRol`);
- the two guarded inserts placed behind those gates: creating a veterinarian and creating an appointment.

The credential store is a class `Db.Store`. Its fields are the tables `usuarios`, `roles`,
`usuarios_roles`, `veterinarios` and `citas`, held as sequences in row order. The store also
holds the AUTO_INCREMENT counters and an `online` flag: when the flag is false, every query
fails. The handlers are methods that read the store and insert into it. `Store.Valid()` is the
table invariant they preserve:

- ids stay below their counters and are distinct;
- an email is unique across both providers;
- every `usuarios_roles` row points to an allocated user id;
- role ids form a key.

The SELECT statements the handlers send are pure functions in `Schema`. The role join
`RoleNames` has a relational partner, `Granted`, and the lemma `RoleNamesJoin` proves the two
agree. Login reports the role that `RoleNames` finds. The role gate is stated through
`Granted`.

The libraries called by the code are not modelled. They appear as function-typed parameters,
declared in `External`:

- jsonwebtoken's `sign` and `verify`;
- bcrypt's `hash` and `compare`;
- google-auth-library's `verifyIdToken`.

The request's `authorization` header and `req.user` are fields of the class
`MiddlewareAuth.Request`. Each request body field is an `Option`, and JavaScript truthiness is
written out: a string is falsy when absent or empty, a number when absent or 0.

Behaviours of the code that the model states explicitly:

- **Bearer stripping is not anchored.** `header.replace("Bearer ", "")` removes the first
  occurrence of `"Bearer "` anywhere in the header. The lemma `StripBearerUnanchored` proves
  that `"Token Bearer abc"` becomes `"Token abc"`.
- **Registration is not atomic.** If no role named CLIENTE exists, the user row is already
  inserted when the handler answers 500, and that user then has no role row.
- **Google sign-in has one catch for every failure.** A rejected credential, a store failure
  and a missing CLIENTE role all answer 401 "Token inválido". The reported role is always
  CLIENTE, and an email already registered as a local user signs in to that local row.
- **The appointment route checks authentication only.** Any authenticated subject may create
  an appointment for any pet. The route makes no ownership check: the postcondition of
  `PostCitas` inserts the row for every valid token and complete body.

Other behaviours of the code:

- Google sign-in reads only the body field `credential` (app.js:120).
- Registration validation failures answer with HTTP 200 (app.js:78, app.js:86).
- Local login reports "Usuario no encontrado" and "Contraseña incorrecta" as different
  messages (app.js:46, app.js:52).
- "Every user has a role" is kept by registration and Google sign-in only while a CLIENTE
  role exists. The postconditions of `Register` and `LoginGoogle` state this.

## Model

| member | source | states |
|---|---|---|
| `Schema.WhereEmail` | app.js:80-86 | the lookup by email returns exactly the users (of either provider) with that email |
| `Schema.WhereEmailLocal` | app.js:40-46 | the login lookup returns exactly the `local` users with that email; an absent email matches no row |
| `Schema.WhereId` | app.js:196-202 | the lookup by id returns exactly the users with that id; an absent id matches no row |
| `Schema.RoleIdByName` | app.js:97-99 | the CLIENTE lookup fails exactly when no role has that name, and otherwise returns the id of a role with that name |
| `Schema.NamesWithId` | middlewareAuth.js:40-43 | joining a role id yields exactly the names of the roles with that id |
| `Schema.RoleNames` | middlewareAuth.js:39-45 | the role names the join yields for a user, in `usuarios_roles` row order; every name is the name of a row of `roles`; `RoleNamesJoin` ties it to `Granted` |
| `Schema.RoleNamesJoin` | middlewareAuth.js:39-47 | a name is among a user's resolved role names exactly when some `usuarios_roles` row of that user points at a role with that name |
| `Schema.RoleNamesAppend` | middlewareAuth.js:37-45 | adding a `usuarios_roles` row appends that role's names to its own user's resolved roles and leaves other users' roles unchanged |
| `Schema.RoleNamesUnlinked` | app.js:54-59 | a user with no `usuarios_roles` row resolves to no role names |
| `Schema.NamesWithKey` | app.js:97-104 | because role ids are a key, a linked role id resolves to exactly one name |
| `Schema.FirstGrant` | app.js:101-104 | the first role row of a new user makes that role the user's only resolved role |
| `Schema.GrantFlips` | middlewareAuth.js:39-47 | granting a role takes effect immediately for its user and changes no other user's roles |
| `Db.Store.InsertUsuario` | app.js:90-95 | the insert appends one row under the next id, returns that id, and keeps the table invariant, including unique emails |
| `Db.Store.InsertUsuarioRol` | app.js:101-104 | the insert appends exactly one link row |
| `Db.Store.InsertVeterinario` | app.js:206-209 | the insert appends one row under the next id and returns that id |
| `Db.Store.InsertCita` | app.js:345-348 | the insert appends one row under the next id and returns that id |
| `MiddlewareAuth.IndexOfFrom` | middlewareAuth.js:15 | the search returns the first occurrence of the pattern at or after the start, or reports that none exists |
| `MiddlewareAuth.ReplaceFirst` | middlewareAuth.js:15 | string `replace` replaces only the first occurrence; with no occurrence the string is returned unchanged |
| `MiddlewareAuth.StripBearer` | middlewareAuth.js:14-15 | the token passed to verify is the header with its first `"Bearer "` removed, wherever it occurs; a header without one is passed unchanged |
| `MiddlewareAuth.StripBearerHeader` | middlewareAuth.js:15 | a header `Bearer <t>` yields exactly `<t>` |
| `MiddlewareAuth.StripBearerUnanchored` | middlewareAuth.js:15 | the removal is not anchored at the start: `"Token Bearer abc"` yields `"Token abc"` |
| `MiddlewareAuth.VerificarToken` | middlewareAuth.js:7-27 | a missing or empty header gives 401 "Token no enviado"; otherwise the decoded claims become `req.user` and the gate passes, or a failed verify gives 401 "Token inválido"; `req.user` changes only on success |
| `MiddlewareAuth.VerificarRol` | middlewareAuth.js:33-62 | the gate passes exactly when the store answers and grants the exact role name to `req.user.id`; a role not granted gives 403; a missing `req.user` or a failing store gives 500 |
| `MiddlewareAuth.VerificarRolIgnoresEmail` | middlewareAuth.js:37-47 | the role decision depends on the subject id only, never on the token's email |
| `App.GenerarToken` | app.js:15-24 | signs exactly `{id, email}` of the user with a 604800-second (7-day) lifetime |
| `App.IssuedTokenAuthenticates` | app.js:15-24 | a token issued for a user and presented as `Bearer <token>` decodes to exactly `{id, email}` of that user, provided verify inverts sign |
| `App.PrimaryRole` | app.js:59 | the reported role is the first resolved name when it is non-empty, and CLIENTE when no name is resolved or the first is empty |
| `App.LoginAdmin` | app.js:36-68 | only `local` users are matched (a Google-only email gives "Usuario no encontrado"); a wrong password gives 400 with no token; bcrypt refusing to compare, or a failing store, gives 500; a token is issued only for a matching local user whose hash matches, with payload `{id, email}` and a 7-day lifetime; the role is the first resolved name or CLIENTE; the store is never changed |
| `App.Register` | app.js:73-111 | missing fields, a failing store or a taken email (under any provider) leave every table unchanged; otherwise exactly one `local` user with `password = hash(plaintext)` is appended, followed by exactly one row linking it to CLIENTE, so CLIENTE is its only role; the user counter advances by exactly one; no token is issued; without a CLIENTE role the user row stays, the answer is 500 and not every user has a role any more; the table invariant is preserved |
| `App.NewUserUnlinked` | app.js:90-104 | a new user without a link row breaks "every user has a role" |
| `App.LinkedKeepsEveryUserHasRole` | app.js:101-104 | adding a user together with a link row for it preserves "every user has a role" |
| `App.LoginGoogle` | app.js:118-169 | a missing or rejected credential, or a failing store, gives 401 and leaves the store unchanged; a known email (any provider) inserts nothing; a new email inserts exactly one password-less `google` user under the next id (advancing the counter by one), with the picture claim stored as given (NULL when absent), and one CLIENTE row; without a CLIENTE role the user row stays, the answer is 401 and not every user has a role any more; the reported role is always CLIENTE; the token carries `{id, email}` for 7 days |
| `App.InsertGoogleUser` | app.js:138-159 | a new email's user is appended under the next id as a password-less `google` row with the ticket's name, email and picture, and the counter advances by one; one CLIENTE link follows, making CLIENTE its only role; without a CLIENTE role no link is added and not every user has a role any more |
| `App.CrearVeterinario` | app.js:192-216 | an unknown `usuario_id` or a failing store inserts nothing; otherwise one row is appended under the next id, carrying the linked user's name and email, and the counter advances by one |
| `App.CrearCita` | app.js:337-360 | if any of `mascota_id`, `veterinario_id`, `fecha` or `motivo` is falsy, or the store fails, nothing is inserted; otherwise exactly one row in state PENDIENTE is inserted under the next id, and the counter advances by one |
| `App.PostVeterinarios` | app.js:192-216 | no header gives 401, a rejected token 401, a subject not granted ADMIN 403 and a failing store 500, each with nothing inserted; a veterinarian is inserted only for a subject holding ADMIN; for such a subject the handler runs: an unknown `usuario_id` gives "Usuario no encontrado" with nothing inserted, otherwise one row copying the user's name and email is appended under the next id, the counter advances by one and the id is returned; `req.user` becomes the decoded claims, and is untouched without them |
| `App.PostCitas` | app.js:337-360 | without a usable token nothing is inserted; with one, `req.user` holds the decoded claims and, whoever the subject is, a falsy field gives "Faltan datos para crear la cita" and a failing store 500, both with nothing inserted, while a complete body appends exactly one PENDIENTE row under the next id, advances the counter by one and returns the id; without usable claims `req.user` is untouched |
| `Scenarios.RegisterThenLogin` | app.js:36-68 | a self-registered client can log in with its password, is reported as CLIENTE, and receives the token issued for its row |
| `Scenarios.ClientDeniedAdminRoute` | app.js:192-209 | a self-registered client's token passes the bearer gate, but the ADMIN-only route answers 403 and inserts nothing |
| `Scenarios.GoogleTwice` | app.js:132-160 | two Google sign-ins with the same email create one user and one role row, and both answers carry the same user |
| `Scenarios.TwoRegistrations` | app.js:90-95 | a second self-registration on a store holding one user gets id 2 |
| `Scenarios.GoogleWithoutClienteRole` | app.js:138-168 | without a CLIENTE role, Google sign-in of a new email answers 401, keeps the inserted user row, and that user has no role |

## Left out

- The database connection pool configuration in db.js is not modelled. Store failure is a
  single `online` flag for the whole store: a failure between two queries of one handler is
  not modelled, apart from the missing-CLIENTE path, which is modelled exactly.
- Express routing, `cors`, `express.json`, `dotenv`, `app.listen` and console logging are
  framework and I/O code. Responses are values; `next()` is the `Next` outcome.
- The internals of bcrypt, JWT signing and Google token verification are not modelled. They
  are function parameters. The random salt of `bcrypt.hash` is folded into the hash
  parameter, and a failing `bcrypt.hash` is not modelled.
- Expiry clock arithmetic is not modelled. The token's lifetime is passed to `sign` as
  604800 seconds. `jwt.verify` failing for an expired token is part of its `Invalid` result,
  and the `iat`/`exp` claims it adds are not part of the decoded claims.
- Only string equality is modelled for SQL comparisons. The collation's case-insensitive
  email comparison is not.
- The row order of a SQL join is unspecified. The model uses `usuarios_roles` row order, so
  the role reported at login is the first in that order.
- List endpoints and other read-only handlers (app.js:175-186, 218-238, 259-287, 313-332,
  365-380, 391-403) are plain SELECTs with no decision logic and are not modelled.
- Pet creation (app.js:243-257, 292-308) and appointment deletion (app.js:382-386) are
  unconditional single statements and are not modelled.
- Foreign-key constraints on `citas` and `veterinarios` are not part of this model, because
  the schema is not part of the source.
- Body values are modelled as strings and integers. JSON values of other types (such as an
  id sent as a string) are not modelled.
- LoginGoogle: assumes the ID token carries the `email` and `name` claims. The
  `nombre` and `email` columns are modelled as strings, so a token without them (which the
  source would bind as NULL) is not modelled. The optional `picture` claim is modelled.
- The Google response's `user` for a new account is the inserted row. The source's object
  lacks the `proveedor` and `password` members, which the model's row has.
- Concurrent requests are not modelled. The race between the email check and the insert in
  registration arises only from interleaving, and the sequential model cannot show it.
- Timestamps such as `creado_en`, and the date handling of `fecha`, are not modelled.

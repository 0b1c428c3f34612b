# Paquexpress courier backend: a verified model

Paquexpress is a small courier service. Agents (`agente`) register and log
in. Packages (`paquete`) are assigned to an agent, each with its own
delivery address (`direccion`). An agent lists the packages still to
deliver and registers a delivery (`registroentrega`) with a photo and a GPS
position. The service consists of five request handlers over four tables.
This project models those handlers and proves what they promise.

- `timestamps.dfy` (module `Timestamps`) renders a date and time as the
  `%Y%m%d%H%M%S` stamp used in photo file names. It also defines the
  inverse, which proves that the rendering of the stamp is injective. The
  whole photo path is injective only for a fixed package id: ids and file
  names may themselves contain `_` and digits, and then deliveries of two
  different packages can get the same path (`Handlers.RutaFotoCollision`).
- `passwords.dfy` (module `Passwords`) covers `get_password_hash` and
  `verify_password`. The scheme truncates to 50 characters, appends the fixed
  salt `paquexpress_salt_2024` and hashes the result. SHA-256 is a
  parameter `sha: string -> string` about which nothing is assumed, in
  particular not injectivity.
- `schema.dfy` (module `Schema`) holds the rows of the four tables and the
  database value `Db`. `Db` has one map per table, keyed by primary key, plus
  the next auto-increment value of each surrogate key. The module also
  defines `Consistent`, the constraints every committed database satisfies:
  - every row is stored under its own key;
  - `usuario` is unique;
  - the foreign keys of packages and delivery records are valid;
  - no two packages share an address;
  - there is at most one delivery record per package;
  - every delivery record's package is Entregado and was delivered by its
    assigned agent;
  - every Entregado package has a delivery record.

  `Evolves(before, after)` says that no row is lost or changed, except a
  package that moves from Asignado or En Ruta to Entregado. So Entregado is
  terminal. The three commits the handlers perform each come with a lemma:
  from a consistent database the commit yields a consistent one that
  evolves from it.
- `handlers.dfy` (module `Handlers`) defines each handler as a ghost function
  `Handlers.X(db, ...)`. The function gives the committed database after the
  request and the response: a value, or an `HttpError` with the source's
  status and message. The module's lemmas state the handlers' properties over
  all inputs.
- `store.dfy` (module `Backend`) holds class `Store`. It has one mutable map
  field per table, the three counters, and the set of photo paths in the
  upload directory. Each handler is one method, and each method's writes are
  assigned at the point where the source commits. Each method ensures that
  the new state and the response are exactly those of `Handlers.X` applied to
  the old state, and that `Valid()` (that is, `Consistent`) holds after it.
  `ListarPaquetes` keeps the source's loop, which attaches each listed
  package's address.
- `scenarios.dfy` (module `Scenarios`) walks through the service's flow
  from an empty database, with every intermediate database written out:
  1. register an agent;
  2. log in;
  3. assign a package;
  4. list it;
  5. be refused as another agent;
  6. deliver it;
  7. see it leave the listing;
  8. be refused a second delivery.

Some behaviour of the code worth stating plainly:
- The code catches a taken package id only through the primary key at
  commit, which yields 500 `Error fatal: ...` rather than a conflict error.
- The 500 responses carry the exception text.
- `activo` is never consulted at login.
- A delivery's photo is written before the commit. When the write or the
  commit fails, the clean-up removes whatever file is at that path.

## Model

| member | source | states |
|---|---|---|
| Passwords.Truncate | principal_evaluacion/main.py:47 | the result is a prefix of the password, of length min(length, 50) |
| Passwords.HashPassword | principal_evaluacion/main.py:45-49 | defines get_password_hash: the digest of the first 50 characters followed by the salt |
| Passwords.VerifyPassword | principal_evaluacion/main.py:51-56 | defines verify_password: the digest of the first 50 characters of the attempt, followed by the salt, equals the stored hash |
| Passwords.TruncateIdempotent | principal_evaluacion/main.py:194-200 | truncating twice is truncating once, so create_agente's second truncation inside get_password_hash changes nothing |
| Passwords.VerifyOwnHash | principal_evaluacion/main.py:45-56 | a password always verifies against its own hash, for any hash function |
| Passwords.SamePrefixIndistinguishable | principal_evaluacion/main.py:45-56 | two passwords agreeing on their first 50 characters have the same hash and each verifies against the other's hash |
| Timestamps.PadDigits | principal_evaluacion/main.py:347 | a zero-padded field of strftime has exactly its width and only digits |
| Timestamps.ParseDigits | principal_evaluacion/main.py:347 | a string of n digits denotes a number below 10^n |
| Timestamps.ParsePadDigits | principal_evaluacion/main.py:347 | reading a zero-padded field gives back the number |
| Timestamps.FormatStamp | principal_evaluacion/main.py:347 | `%Y%m%d%H%M%S` of a date and time with a four-digit year is 14 digits |
| Timestamps.StampFields | principal_evaluacion/main.py:347 | each of the six fields sits at its fixed offset in the stamp |
| Timestamps.StampRoundTrip | principal_evaluacion/main.py:347 | parsing the stamp gives back the date and time |
| Timestamps.StampInjective | principal_evaluacion/main.py:347 | two different instants never give the same stamp |
| Schema.EmptyDbConsistent | principal_evaluacion/main.py:67-106 | the empty tables satisfy every key, uniqueness and foreign-key constraint |
| Schema.EntregadoIsTerminal | principal_evaluacion/main.py:90 | across any evolution an Entregado package keeps its row unchanged |
| Schema.EvolvesTransitive | principal_evaluacion/main.py:90 | evolution composes, so the guarantees hold across any sequence of requests |
| Schema.EvolvesKeepsPaquetesWellFormed | principal_evaluacion/main.py:88-89 | rows that are kept keep valid foreign keys; only new packages need checking |
| Schema.EvolvesKeepsEntregasWellFormed | principal_evaluacion/main.py:99-100 | kept delivery records stay valid because their packages stay Entregado |
| Schema.EvolvesKeepsEntregadosRecorded | principal_evaluacion/main.py:96-106 | kept records keep every old Entregado package recorded |
| Schema.EvolvesKeepsDireccionesNotShared | principal_evaluacion/main.py:88 | a change of estado alone keeps addresses unshared |
| Schema.CommitAgente | principal_evaluacion/main.py:202-204 | defines the registration commit: the agent is inserted under its id and the agent counter advances |
| Schema.CommitPaquete | principal_evaluacion/main.py:276-287 | defines the package commit: the address and the package are inserted together and the address counter advances |
| Schema.CommitEntrega | principal_evaluacion/main.py:354-367 | defines the delivery commit: the record is inserted, its package becomes Entregado, and the record counter advances |
| Schema.CommitAgenteEvolves | principal_evaluacion/main.py:203-204 | inserting an agent under a fresh id changes no existing row |
| Schema.CommitAgentePreserves | principal_evaluacion/main.py:196-204 | inserting an agent with the next id and an unused usuario keeps the database consistent |
| Schema.CommitPaqueteEvolves | principal_evaluacion/main.py:276-287 | inserting an address and a package under fresh keys changes no existing row |
| Schema.NextDireccionUnused | principal_evaluacion/main.py:268-282 | the next auto-increment address id is neither stored nor referenced by any package |
| Schema.CommitPaquetePreserves | principal_evaluacion/main.py:268-287 | committing a fresh address with an Asignado package for an existing agent keeps the database consistent |
| Schema.UndeliveredHasNoEntrega | principal_evaluacion/main.py:99 | a package that is not Entregado has no delivery record, and no record holds the next id |
| Schema.CommitEntregaEvolves | principal_evaluacion/main.py:361-367 | a delivery commit changes no row except the package moving to Entregado |
| Schema.CommitEntregaKeepsEntregas | principal_evaluacion/main.py:354-367 | the new record is well formed and the only one for its package |
| Schema.CommitEntregaKeepsRecorded | principal_evaluacion/main.py:364-367 | the only package that becomes Entregado gets its record in the same commit |
| Schema.CommitEntregaPreserves | principal_evaluacion/main.py:354-367 | recording the delivery of an Asignado or En Ruta package by its agent keeps the database consistent |
| Handlers.CreateAgente | principal_evaluacion/main.py:181-208 | defines create_agente on the committed database: 400 on an empty field, 400 on a taken usuario, otherwise the commit of an active agent with the next id and the hash of the truncated password |
| Handlers.Login | principal_evaluacion/main.py:217-242 | defines login_for_access_token: 400 on an empty field, 401 for an unknown usuario or a password that does not verify, otherwise the message with the agent's id and nombre |
| Handlers.CreatePaquete | principal_evaluacion/main.py:250-294 | defines create_paquete: 404 for an unknown agent, 500 for a taken package id, otherwise the commit of a fresh fixed-value address and an Asignado package |
| Handlers.Asignados | principal_evaluacion/main.py:308-311 | defines the listing query: the ids of the agent's packages in Asignado or En Ruta |
| Handlers.RegistrarEntrega | principal_evaluacion/main.py:325-374 | defines registrar_entrega: 404 when the package is not the agent's or not Asignado or En Ruta, 500 when the write or the commit fails, otherwise the commit of the record with the photo path |
| Handlers.RutaFotoInjective | principal_evaluacion/main.py:347-348 | for one package, the photo path determines the instant and the uploaded file name |
| Handlers.RutaFotoCollision | principal_evaluacion/main.py:347-348 | for different packages the path can coincide: an id and a file name containing `_` and a stamp give the same path at different instants |
| Handlers.CreateAgenteOutcome | principal_evaluacion/main.py:191-208 | 400 with nothing changed exactly when a field is empty or the usuario is taken; otherwise one new agent under a fresh id, active, holding the hash of the password's first 50 characters |
| Handlers.CreateAgentePreserves | principal_evaluacion/main.py:196-204 | registration keeps the database consistent (so usuario stays unique) and changes no existing row |
| Handlers.UsuarioRegisteredOnce | principal_evaluacion/main.py:196-198 | after a usuario is registered, registering it again gives 400 "El usuario ya existe" and changes nothing |
| Handlers.LoginOutcome | principal_evaluacion/main.py:222-242 | 400 on an empty field; for a registered usuario, the agent's id and nombre if the password verifies and otherwise 401 "Usuario o contraseña incorrectos" |
| Handlers.LoginUnknownUsuario | principal_evaluacion/main.py:225-229 | an unknown usuario gets the same 401 as a wrong password |
| Handlers.RegisteredAgentLogsIn | principal_evaluacion/main.py:225-242 | a freshly registered agent logs in with its password, or any password agreeing with it on 50 characters, and gets its own id and name |
| Handlers.CreatePaqueteOutcome | principal_evaluacion/main.py:263-294 | an unknown agent gives 404 and a taken package id gives 500, both with nothing written; otherwise exactly one fresh address ("Colonia Central", "Ciudad Ejemplo", "10001", the given street and coordinates) and one Asignado package pointing at it and at the agent |
| Handlers.CreatePaquetePreserves | principal_evaluacion/main.py:276-287 | package creation keeps the database consistent and changes no existing row |
| Handlers.AsignadosOutcome | principal_evaluacion/main.py:308-311 | the listing holds exactly the agent's packages whose estado is Asignado or En Ruta, never Entregado or Cancelado, and nothing for an unknown agent |
| Handlers.DeliveryCommitSucceeds | principal_evaluacion/main.py:99-100 | for an eligible package the unique id_paquete_fk constraint and the id_agente_fk foreign key hold at the delivery commit |
| Handlers.RegistrarEntregaOutcome | principal_evaluacion/main.py:337-374 | a missing package, another agent's package and an ineligible estado all give the same 404 with nothing changed; a failed photo write or a refused commit gives 500 with nothing changed; otherwise exactly one new record with the path uploads/id_stamp_filename, and only that package becomes Entregado |
| Handlers.RegistrarEntregaPreserves | principal_evaluacion/main.py:354-367 | a delivery keeps the database consistent and only advances packages |
| Handlers.EligibleIffListed | principal_evaluacion/main.py:308-341 | an agent can deliver a package exactly when the listing shows it to that agent |
| Handlers.SecondDeliveryFails | principal_evaluacion/main.py:337-367 | after a delivery succeeds, any further delivery of that package, by anyone, gives 404 and changes nothing |
| Backend.Store.constructor | principal_evaluacion/main.py:156 | the store starts with empty, consistent tables and an empty upload directory |
| Backend.Store.CreateAgente | principal_evaluacion/main.py:181-214 | the new tables and the response are those of create_agente, and the store stays consistent |
| Backend.Store.Login | principal_evaluacion/main.py:217-247 | the response is that of login_for_access_token, and nothing changes |
| Backend.Store.CreatePaquete | principal_evaluacion/main.py:250-300 | the new tables and the response are those of create_paquete, and the store stays consistent |
| Backend.Store.ListarPaquetes | principal_evaluacion/main.py:303-318 | every listed entry is a stored package with its own address attached; no package appears twice; the listed ids are exactly the agent's Asignado and En Ruta packages |
| Backend.Store.RegistrarEntrega | principal_evaluacion/main.py:325-381 | the new tables and the response are those of registrar_entrega, and the store stays consistent; the photo path is added to the upload directory on success and removed when the write or the commit fails |
| Scenarios.NowStamp | principal_evaluacion/main.py:347 | 09:30:00 on 17 May 2024 renders as 20240517093000 |
| Scenarios.AgentStep | principal_evaluacion/main.py:191-242 | on an empty database the first agent gets id 1 and logs in, and an unknown usuario gets 401 |
| Scenarios.PackageStep | principal_evaluacion/main.py:263-318 | the agent's first package is listed for it; the same id again gives 500 and an unknown agent 404, with nothing changed |
| Scenarios.DeliveryStep | principal_evaluacion/main.py:337-374 | another agent is refused with 404; the agent's delivery records the photo and marks the package Entregado; the package leaves the listing; a second delivery gives 404 |

## Left out

- Web plumbing is not modelled: the FastAPI app, CORS, the static mount,
  creating the `uploads` directory, the `uvicorn` entry point and the
  Pydantic response schemas. Responses are Dafny datatypes. FastAPI answers
  422 on a missing or empty required form field before a handler runs, so
  over HTTP the 400 "Todos los campos son requeridos" of create_agente is
  reached only by calling the handler directly. The model describes the
  handler itself.
- The SQLAlchemy engine and session are not modelled. A handler's writes
  become visible together at its commit, or not at all.
- Auto-increment gaps are not modelled. The counters advance only on commit,
  while MySQL may skip values after a rollback. Nothing proved depends on
  ids being dense.
- MySQL collation is not modelled. String keys are compared exactly, not
  case-insensitively. This applies to `usuario` (the duplicate check and the
  login lookup) and to `id_paquete`: the primary key checked by
  create_paquete and the delivery lookup of registrar_entrega. With "PKG-1"
  stored, the source refuses a new "pkg-1" with 500 and delivers "PKG-1"
  for "pkg-1". The model accepts the new package and answers the delivery
  with 404.
- Column widths (`String(50)`, `String(255)` and so on) are not enforced.
  A commit refused for an over-long value, such as a long `ruta_foto`, is
  covered only through the `commitOk` parameter of registrar_entrega.
- SHA-256 is a parameter, and nothing about it is assumed. Its encoding to
  UTF-8 hex is part of that parameter.
- Float coordinates are opaque values, and no arithmetic is done on them.
  The columns are MySQL single-precision FLOAT. Values read back after the
  commit are rounded to about seven significant digits. The model keeps the
  given `Coord` unchanged in the stored rows and in the responses of
  create_paquete and registrar_entrega.
- Clocks are parameters. `datetime.now` (the photo stamp) and
  `datetime.utcnow` (the row timestamps) are passed in, and the stamp is
  modelled only for four-digit years.
- The photo's contents and the file system are not modelled. The upload
  directory is a set of paths. Whether the write succeeds is the `writeOk`
  parameter, and whether the commit after it succeeds is `commitOk`.
- The `SesionAgente` table is not modelled, because no handler uses it.
- Startup seeding of the test agent is not modelled, because it depends on
  a live database connection.
- `print` logging is not modelled.
- Concurrency is not modelled, because every request is treated as running
  alone.
- Handlers.CreateAgente: the 500 path (a lost database connection, a
  failed commit) is not modelled, because it needs a failing database.
- Handlers.Login: the 500 path is not modelled, for the same reason.
- Handlers.Asignados: the 500 path of the listing is not modelled, for the
  same reason.
- Handlers.CreatePaquete: only a taken package id produces the 500. The
  exception text that the source appends to "Error fatal: " is not
  modelled, and neither are other database failures.
- Handlers.RegistrarEntrega: the 500 comes from a failed write (`writeOk`)
  or a refused commit (`commitOk`). What refuses the commit (column widths,
  a lost connection) is not modelled; DeliveryCommitSucceeds shows that
  the table's key constraints are never the cause. The appended exception
  text is not modelled.
- Backend.Store.ListarPaquetes: the result order is whatever the loop
  picks, because the source's query has no ORDER BY.
- Backend.Store.RegistrarEntrega: removing a file on a failed write or
  commit assumes the failure leaves nothing else behind.

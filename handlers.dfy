/** What each request handler does to the committed database and what it
    answers, as functions of the database before the request; and the
    properties these handlers have. `Store` in store.dfy carries out the same
    steps on mutable tables. */
module Handlers {
  import opened Timestamps
  import opened Passwords
  import opened Schema

  /** The committed database after a request, and the response. */
  datatype Outcome<T> = Outcome(after: Db, response: Result<T>)

  const CamposRequeridos := HttpError(400, "Todos los campos son requeridos")
  const UsuarioExiste := HttpError(400, "El usuario ya existe")
  const CredencialesRequeridas := HttpError(400, "Usuario y contraseña son requeridos")
  const CredencialesIncorrectas := HttpError(401, "Usuario o contraseña incorrectos")
  const AgenteNoEncontrado := HttpError(404, "Agente no encontrado")
  const PaqueteNoElegible := HttpError(404, "Paquete no encontrado o no asignado a este agente.")
  /** The 500 responses; the message of the exception that follows the prefix is not modelled. */
  const ErrorFatal := HttpError(500, "Error fatal: ")
  const ErrorGuardarEntrega := HttpError(500, "Error interno al guardar la entrega: ")

  const LoginExitoso := "Inicio de sesión exitoso"

  function EntregaRegistrada(idPaquete: string): string {
    "Entrega del paquete " + idPaquete + " registrada correctamente."
  }

  ghost predicate UsuarioTaken(agentes: map<int, Agente>, usuario: string) {
    exists id :: id in agentes && agentes[id].usuario == usuario
  }

  // ---------------------------------------------------------------- create_agente

  ghost function CreateAgente(db: Db, sha: Digest, usuario: string, nombre: string, password: string): Outcome<Agente> {
    if usuario == "" || nombre == "" || password == "" then
      Outcome(db, Err(CamposRequeridos))
    else if UsuarioTaken(db.agentes, usuario) then
      Outcome(db, Err(UsuarioExiste))
    else
      var agente := Agente(db.nextAgenteId, nombre, usuario, HashPassword(sha, Truncate(password)), true);
      Outcome(CommitAgente(db, agente), Ok(agente))
  }

  /** Registration fails with 400, changing nothing, exactly when a field is
      empty or the usuario is taken; otherwise it adds one new agent, under a
      fresh id, holding the hash of the password's first 50 characters. */
  lemma CreateAgenteOutcome(db: Db, sha: Digest, usuario: string, nombre: string, password: string)
    requires Consistent(db)
    ensures var out := CreateAgente(db, sha, usuario, nombre, password);
      && (out.response.Err? <==> usuario == "" || nombre == "" || password == "" || UsuarioTaken(db.agentes, usuario))
      && (out.response.Err? ==> out.after == db && out.response.error.status == 400)
      && (out.response.Ok? ==>
            var a := out.response.value;
            && a.idAgente !in db.agentes
            && a == Agente(a.idAgente, nombre, usuario, HashPassword(sha, password), true)
            && out.after == db.(agentes := db.agentes[a.idAgente := a], nextAgenteId := out.after.nextAgenteId))
  {
    TruncateIdempotent(password);
  }

  lemma CreateAgentePreserves(db: Db, sha: Digest, usuario: string, nombre: string, password: string)
    requires Consistent(db)
    ensures var out := CreateAgente(db, sha, usuario, nombre, password);
      Consistent(out.after) && Evolves(db, out.after)
  {
    var out := CreateAgente(db, sha, usuario, nombre, password);
    if out.response.Ok? {
      CommitAgentePreserves(db, out.response.value);
    }
  }

  /** Once an usuario is registered, registering it again fails and changes nothing. */
  lemma UsuarioRegisteredOnce(db: Db, sha: Digest, usuario: string, nombre: string, password: string,
                              nombre2: string, password2: string)
    requires Consistent(db)
    requires CreateAgente(db, sha, usuario, nombre, password).response.Ok?
    requires nombre2 != "" && password2 != ""
    ensures var after := CreateAgente(db, sha, usuario, nombre, password).after;
      CreateAgente(after, sha, usuario, nombre2, password2) == Outcome(after, Err(UsuarioExiste))
  {
    var out := CreateAgente(db, sha, usuario, nombre, password);
    assert out.after.agentes[db.nextAgenteId].usuario == usuario;
  }

  // ---------------------------------------------------------------- login_for_access_token

  ghost function Login(db: Db, sha: Digest, usuario: string, password: string): Result<LoginOk> {
    if usuario == "" || password == "" then
      Err(CredencialesRequeridas)
    else if !UsuarioTaken(db.agentes, usuario) then
      Err(CredencialesIncorrectas)
    else
      var id :| id in db.agentes && db.agentes[id].usuario == usuario;
      var agente := db.agentes[id];
      if !VerifyPassword(sha, Truncate(password), agente.passwordHash) then
        Err(CredencialesIncorrectas)
      else
        Ok(LoginOk(LoginExitoso, agente.idAgente, agente.nombre))
  }

  /** Login answers 400 on an empty field, the same 401 for an unknown usuario
      and for a password that does not verify, and otherwise that agent's id
      and name. */
  lemma LoginOutcome(db: Db, sha: Digest, usuario: string, password: string, id: int)
    requires Consistent(db)
    requires id in db.agentes && db.agentes[id].usuario == usuario
    ensures usuario == "" || password == "" ==> Login(db, sha, usuario, password) == Err(CredencialesRequeridas)
    ensures usuario != "" && password != "" ==>
      Login(db, sha, usuario, password)
        == if VerifyPassword(sha, password, db.agentes[id].passwordHash)
           then Ok(LoginOk(LoginExitoso, id, db.agentes[id].nombre))
           else Err(CredencialesIncorrectas)
  {
    TruncateIdempotent(password);
  }

  lemma LoginUnknownUsuario(db: Db, sha: Digest, usuario: string, password: string)
    requires !UsuarioTaken(db.agentes, usuario)
    ensures Login(db, sha, usuario, password)
              == if usuario == "" || password == "" then Err(CredencialesRequeridas) else Err(CredencialesIncorrectas)
  {
  }

  /** A registered agent logs in with its password, or with any password that
      agrees with it on the first 50 characters, and gets its own id and name. */
  lemma RegisteredAgentLogsIn(db: Db, sha: Digest, usuario: string, nombre: string, password: string, attempt: string)
    requires Consistent(db)
    requires CreateAgente(db, sha, usuario, nombre, password).response.Ok?
    requires Truncate(attempt) == Truncate(password)
    ensures var out := CreateAgente(db, sha, usuario, nombre, password);
      Login(out.after, sha, usuario, attempt) == Ok(LoginOk(LoginExitoso, out.response.value.idAgente, nombre))
  {
    var out := CreateAgente(db, sha, usuario, nombre, password);
    var a := out.response.value;
    CreateAgentePreserves(db, sha, usuario, nombre, password);
    assert attempt != "";
    TruncateIdempotent(password);
    TruncateIdempotent(attempt);
    LoginOutcome(out.after, sha, usuario, attempt, a.idAgente);
  }

  // ---------------------------------------------------------------- create_paquete

  /** The address row written for a new package: the given street and
      coordinates, and fixed placeholders for the rest. */
  function NuevaDireccion(id: int, calle: string, lat: Coord, lon: Coord): Direccion {
    Direccion(id, calle, "Colonia Central", "Ciudad Ejemplo", "10001", lat, lon)
  }

  function Vista(p: Paquete, d: Direccion): PaqueteAsignado {
    PaqueteAsignado(p.idPaquete, p.idAgenteAsignadoFk, p.estado, d)
  }

  /** The agent is looked up before anything is written; the address and the
      package are committed together, and a taken package id makes the commit
      fail, discarding both. */
  ghost function CreatePaquete(db: Db, idPaquete: string, idAgente: int, calle: string, lat: Coord, lon: Coord,
                               utcNow: DateTime): Outcome<PaqueteAsignado>
  {
    if idAgente !in db.agentes then
      Outcome(db, Err(AgenteNoEncontrado))
    else if idPaquete in db.paquetes then
      Outcome(db, Err(ErrorFatal))
    else
      var direccion := NuevaDireccion(db.nextDireccionId, calle, lat, lon);
      var paquete := Paquete(idPaquete, direccion.idDireccion, idAgente, Asignado, utcNow);
      Outcome(CommitPaquete(db, direccion, paquete), Ok(Vista(paquete, direccion)))
  }

  /** An unknown agent gives 404 and a taken package id 500, neither leaving a
      row behind; otherwise one fresh address and one package are added, the
      package Asignado and pointing at that address and agent. */
  lemma CreatePaqueteOutcome(db: Db, idPaquete: string, idAgente: int, calle: string, lat: Coord, lon: Coord,
                             utcNow: DateTime)
    requires Consistent(db)
    ensures var out := CreatePaquete(db, idPaquete, idAgente, calle, lat, lon, utcNow);
      && (idAgente !in db.agentes ==> out == Outcome(db, Err(AgenteNoEncontrado)))
      && (idAgente in db.agentes && idPaquete in db.paquetes ==> out == Outcome(db, Err(ErrorFatal)))
      && (out.response.Ok? <==> idAgente in db.agentes && idPaquete !in db.paquetes)
      && (out.response.Ok? ==>
            var v := out.response.value;
            var d := v.direccion;
            && d.idDireccion !in db.direcciones
            && d == NuevaDireccion(d.idDireccion, calle, lat, lon)
            && v == PaqueteAsignado(idPaquete, idAgente, Asignado, d)
            && out.after.direcciones == db.direcciones[d.idDireccion := d]
            && out.after.paquetes == db.paquetes[idPaquete := Paquete(idPaquete, d.idDireccion, idAgente, Asignado, utcNow)]
            && out.after.agentes == db.agentes && out.after.entregas == db.entregas)
  {
  }

  lemma CreatePaquetePreserves(db: Db, idPaquete: string, idAgente: int, calle: string, lat: Coord, lon: Coord,
                               utcNow: DateTime)
    requires Consistent(db)
    ensures var out := CreatePaquete(db, idPaquete, idAgente, calle, lat, lon, utcNow);
      Consistent(out.after) && Evolves(db, out.after)
  {
    var out := CreatePaquete(db, idPaquete, idAgente, calle, lat, lon, utcNow);
    if out.response.Ok? {
      var d := NuevaDireccion(db.nextDireccionId, calle, lat, lon);
      CommitPaquetePreserves(db, d, Paquete(idPaquete, d.idDireccion, idAgente, Asignado, utcNow));
    }
  }

  // ---------------------------------------------------------------- listar_paquetes

  /** The filter of the listing query. */
  predicate Listable(p: Paquete, idAgente: int) {
    p.idAgenteAsignadoFk == idAgente && (p.estado == Asignado || p.estado == EnRuta)
  }

  /** The ids of the packages the listing returns, in no particular order. */
  ghost function Asignados(db: Db, idAgente: int): set<string> {
    set k | k in db.paquetes && Listable(db.paquetes[k], idAgente)
  }

  /** The listing holds exactly the agent's Asignado and En Ruta packages: never
      a delivered or cancelled one, and nothing for an unknown agent. */
  lemma AsignadosOutcome(db: Db, idAgente: int)
    requires Consistent(db)
    ensures forall k :: k in Asignados(db, idAgente) <==>
      k in db.paquetes && db.paquetes[k].idAgenteAsignadoFk == idAgente
      && db.paquetes[k].estado != Entregado && db.paquetes[k].estado != Cancelado
    ensures idAgente !in db.agentes ==> Asignados(db, idAgente) == {}
  {
    if idAgente !in db.agentes {
      forall k | k in db.paquetes ensures !Listable(db.paquetes[k], idAgente) {
        assert PaqueteWellFormed(db, k);
      }
    }
  }

  // ---------------------------------------------------------------- registrar_entrega

  /** The condition of the delivery query: the package exists, is assigned to
      that agent, and is Asignado or En Ruta. */
  predicate Eligible(db: Db, idPaquete: string, idAgente: int) {
    idPaquete in db.paquetes && Listable(db.paquetes[idPaquete], idAgente)
  }

  /** Where the photo is written: `uploads/<id>_<local time stamp>_<file name>`. */
  function RutaFoto(idPaquete: string, localNow: DateTime, filename: string): string
    requires ValidDateTime(localNow)
  {
    "uploads/" + idPaquete + "_" + FormatStamp(localNow) + "_" + filename
  }

  /** For one package, the photo path determines the instant and the uploaded
      name: two deliveries of the same package at different seconds, or with
      different file names, never share a path. */
  lemma RutaFotoInjective(idPaquete: string, t1: DateTime, f1: string, t2: DateTime, f2: string)
    requires ValidDateTime(t1) && ValidDateTime(t2)
    requires RutaFoto(idPaquete, t1, f1) == RutaFoto(idPaquete, t2, f2)
    ensures t1 == t2 && f1 == f2
  {
    var prefix := "uploads/" + idPaquete + "_";
    var n := |prefix|;
    var s1, s2 := RutaFoto(idPaquete, t1, f1), RutaFoto(idPaquete, t2, f2);
    assert s1 == prefix + FormatStamp(t1) + "_" + f1;
    assert s2 == prefix + FormatStamp(t2) + "_" + f2;
    assert s1[n..n + 14] == FormatStamp(t1);
    assert s2[n..n + 14] == FormatStamp(t2);
    StampInjective(t1, t2);
    assert s1[n + 15..] == f1;
    assert s2[n + 15..] == f2;
  }

  /** Across packages the path is not unique: when package ids and file names
      themselves contain `_` and digits, two deliveries of different packages
      at different instants can be given the same path, so the later write
      replaces the earlier photo and a failed one removes it. */
  lemma RutaFotoCollision(a: string, b: string, c: string, t1: DateTime, t2: DateTime)
    requires ValidDateTime(t1) && ValidDateTime(t2)
    ensures RutaFoto(a, t1, b + "_" + FormatStamp(t2) + "_" + c)
         == RutaFoto(a + "_" + FormatStamp(t1) + "_" + b, t2, c)
  {
    var x, y := FormatStamp(t1), FormatStamp(t2);
    calc {
      RutaFoto(a, t1, b + "_" + y + "_" + c);
      "uploads/" + a + "_" + x + "_" + (b + "_" + y + "_" + c);
      "uploads/" + (a + "_" + x + "_" + b) + "_" + y + "_" + c;
      RutaFoto(a + "_" + x + "_" + b, t2, c);
    }
  }

  /** `writeOk` is whether saving the photo succeeded. The record and the status
      change are committed together after it; `commitOk` is whether the
      database accepted that commit. The table constraints never refuse it
      (DeliveryCommitSucceeds), but a column width or a lost connection can. */
  ghost function RegistrarEntrega(db: Db, idPaquete: string, idAgente: int, lat: Coord, lon: Coord, filename: string,
                                  localNow: DateTime, utcNow: DateTime, writeOk: bool, commitOk: bool): Outcome<EntregaOk>
    requires ValidDateTime(localNow)
  {
    if !Eligible(db, idPaquete, idAgente) then
      Outcome(db, Err(PaqueteNoElegible))
    else if !writeOk || !commitOk then
      Outcome(db, Err(ErrorGuardarEntrega))
    else
      var entrega := RegistroEntrega(db.nextEntregaId, idPaquete, idAgente, RutaFoto(idPaquete, localNow, filename),
                                     lat, lon, utcNow);
      Outcome(CommitEntrega(db, entrega), Ok(EntregaOk(EntregaRegistrada(idPaquete), entrega)))
  }

  /** The constraints checked at the delivery commit always hold: an eligible
      package has no delivery record yet (unique `id_paquete_fk`) and its agent
      exists (foreign key `id_agente_fk`). */
  lemma DeliveryCommitSucceeds(db: Db, idPaquete: string, idAgente: int)
    requires Consistent(db)
    requires Eligible(db, idPaquete, idAgente)
    ensures !HasEntrega(db.entregas, idPaquete)
    ensures idAgente in db.agentes
  {
    assert PaqueteWellFormed(db, idPaquete);
    forall e | e in db.entregas ensures db.entregas[e].idPaqueteFk != idPaquete {
      assert EntregaWellFormed(db, e);
    }
  }

  /** An ineligible request (no such package, another agent's package, or one
      not Asignado or En Ruta) gives one and the same 404 and changes nothing; a
      failed photo write or a refused commit gives 500 and changes nothing;
      otherwise exactly one record is added and only that package's estado
      changes, to Entregado. */
  lemma RegistrarEntregaOutcome(db: Db, idPaquete: string, idAgente: int, lat: Coord, lon: Coord, filename: string,
                                localNow: DateTime, utcNow: DateTime, writeOk: bool, commitOk: bool)
    requires Consistent(db)
    requires ValidDateTime(localNow)
    ensures var out := RegistrarEntrega(db, idPaquete, idAgente, lat, lon, filename, localNow, utcNow, writeOk, commitOk);
      && (!Eligible(db, idPaquete, idAgente) ==> out == Outcome(db, Err(PaqueteNoElegible)))
      && (Eligible(db, idPaquete, idAgente) && !(writeOk && commitOk) ==> out == Outcome(db, Err(ErrorGuardarEntrega)))
      && (out.response.Ok? <==> Eligible(db, idPaquete, idAgente) && writeOk && commitOk)
      && (out.response.Ok? ==>
            var r := out.response.value.entrega;
            && r.idEntrega !in db.entregas
            && r == RegistroEntrega(r.idEntrega, idPaquete, idAgente,
                                    "uploads/" + idPaquete + "_" + FormatStamp(localNow) + "_" + filename,
                                    lat, lon, utcNow)
            && out.after.entregas == db.entregas[r.idEntrega := r]
            && out.after.paquetes == db.paquetes[idPaquete := db.paquetes[idPaquete].(estado := Entregado)]
            && out.after.agentes == db.agentes && out.after.direcciones == db.direcciones)
  {
  }

  lemma RegistrarEntregaPreserves(db: Db, idPaquete: string, idAgente: int, lat: Coord, lon: Coord, filename: string,
                                  localNow: DateTime, utcNow: DateTime, writeOk: bool, commitOk: bool)
    requires Consistent(db)
    requires ValidDateTime(localNow)
    ensures var out := RegistrarEntrega(db, idPaquete, idAgente, lat, lon, filename, localNow, utcNow, writeOk, commitOk);
      Consistent(out.after) && Evolves(db, out.after)
  {
    var out := RegistrarEntrega(db, idPaquete, idAgente, lat, lon, filename, localNow, utcNow, writeOk, commitOk);
    if out.response.Ok? {
      CommitEntregaPreserves(db, out.response.value.entrega);
    }
  }

  /** A package can be delivered by an agent exactly when the listing shows it to that agent. */
  lemma EligibleIffListed(db: Db, idPaquete: string, idAgente: int)
    ensures Eligible(db, idPaquete, idAgente) <==> idPaquete in Asignados(db, idAgente)
  {
  }

  /** After a delivery succeeds, a second one for the same package fails with
      404 and changes nothing, whoever asks. */
  lemma SecondDeliveryFails(db: Db, idPaquete: string, idAgente: int, lat: Coord, lon: Coord, filename: string,
                            localNow: DateTime, utcNow: DateTime,
                            idAgente2: int, lat2: Coord, lon2: Coord, filename2: string,
                            localNow2: DateTime, utcNow2: DateTime, writeOk2: bool, commitOk2: bool)
    requires ValidDateTime(localNow) && ValidDateTime(localNow2)
    requires RegistrarEntrega(db, idPaquete, idAgente, lat, lon, filename, localNow, utcNow, true, true).response.Ok?
    ensures var after := RegistrarEntrega(db, idPaquete, idAgente, lat, lon, filename, localNow, utcNow, true, true).after;
      RegistrarEntrega(after, idPaquete, idAgente2, lat2, lon2, filename2, localNow2, utcNow2, writeOk2, commitOk2)
        == Outcome(after, Err(PaqueteNoElegible))
  {
  }
}

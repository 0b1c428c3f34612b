/** The service's database session and upload directory as one object: one
    mutable map per table, the auto-increment counters, and the set of photo
    paths written under `uploads/`. Each method is one request handler; a
    handler's writes are assigned to the fields only at the point where the
    source commits, so a request that fails leaves the tables as they were. */
module Backend {
  import opened Timestamps
  import opened Passwords
  import opened Schema
  import opened Handlers

  class Store {
    /** The hex SHA-256 digest the password scheme uses. */
    const sha: Digest

    var agentes: map<int, Agente>
    var direcciones: map<int, Direccion>
    var paquetes: map<string, Paquete>
    var entregas: map<int, RegistroEntrega>
    var nextAgenteId: int
    var nextDireccionId: int
    var nextEntregaId: int

    /** Paths of the photo files present in the upload directory. */
    var uploads: set<string>

    ghost function State(): Db
      reads this
    {
      Db(agentes, direcciones, paquetes, entregas, nextAgenteId, nextDireccionId, nextEntregaId)
    }

    ghost predicate Valid()
      reads this
    {
      Consistent(State())
    }

    constructor (sha: Digest)
      ensures Valid()
      ensures State() == EmptyDb && uploads == {} && this.sha == sha
    {
      this.sha := sha;
      agentes, direcciones, paquetes, entregas := map[], map[], map[], map[];
      nextAgenteId, nextDireccionId, nextEntregaId := 1, 1, 1;
      uploads := {};
      new;
      EmptyDbConsistent();
    }

    /** `create_agente`. */
    method CreateAgente(usuario: string, nombre: string, password: string) returns (r: Result<Agente>)
      requires Valid()
      modifies this`agentes, this`nextAgenteId
      ensures Valid()
      ensures Outcome(State(), r) == Handlers.CreateAgente(old(State()), sha, usuario, nombre, password)
    {
      if usuario == "" || nombre == "" || password == "" {
        return Err(CamposRequeridos);
      }
      var validated := Truncate(password);
      if exists id :: id in agentes && agentes[id].usuario == usuario {
        return Err(UsuarioExiste);
      }
      var nuevo := Agente(nextAgenteId, nombre, usuario, HashPassword(sha, validated), true);
      CommitAgentePreserves(State(), nuevo);
      agentes := agentes[nuevo.idAgente := nuevo];
      nextAgenteId := nextAgenteId + 1;
      r := Ok(nuevo);
    }

    /** `login_for_access_token`. */
    method Login(usuario: string, password: string) returns (r: Result<LoginOk>)
      requires Valid()
      ensures r == Handlers.Login(State(), sha, usuario, password)
    {
      if usuario == "" || password == "" {
        return Err(CredencialesRequeridas);
      }
      if !exists id :: id in agentes && agentes[id].usuario == usuario {
        return Err(CredencialesIncorrectas);
      }
      var id :| id in agentes && agentes[id].usuario == usuario;
      var agente := agentes[id];
      var validated := Truncate(password);
      if !VerifyPassword(sha, validated, agente.passwordHash) {
        return Err(CredencialesIncorrectas);
      }
      r := Ok(LoginOk(LoginExitoso, agente.idAgente, agente.nombre));
    }

    /** `create_paquete`. The address is written (flushed) first and the
        package after it; both become visible together at the commit, which
        the primary key on `id_paquete` makes fail when the id is taken. */
    method CreatePaquete(idPaquete: string, idAgente: int, calle: string, lat: Coord, lon: Coord, utcNow: DateTime)
      returns (r: Result<PaqueteAsignado>)
      requires Valid()
      modifies this`direcciones, this`paquetes, this`nextDireccionId
      ensures Valid()
      ensures Outcome(State(), r) == Handlers.CreatePaquete(old(State()), idPaquete, idAgente, calle, lat, lon, utcNow)
    {
      if idAgente !in agentes {
        return Err(AgenteNoEncontrado);
      }
      var direccion := NuevaDireccion(nextDireccionId, calle, lat, lon);
      var pendingDirecciones := direcciones[direccion.idDireccion := direccion];
      var paquete := Paquete(idPaquete, direccion.idDireccion, idAgente, Asignado, utcNow);
      if idPaquete in paquetes {
        return Err(ErrorFatal);
      }
      CommitPaquetePreserves(State(), direccion, paquete);
      direcciones := pendingDirecciones;
      paquetes := paquetes[idPaquete := paquete];
      nextDireccionId := nextDireccionId + 1;
      r := Ok(Vista(paquete, direccion));
    }

    /** `listar_paquetes`: the query picks the agent's Asignado and En Ruta
        packages, in no particular order, and the loop attaches each one's
        address. */
    method ListarPaquetes(idAgente: int) returns (r: seq<PaqueteAsignado>)
      requires Valid()
      ensures forall i :: 0 <= i < |r| ==>
        && r[i].idPaquete in paquetes
        && paquetes[r[i].idPaquete].idDireccionFk in direcciones
        && r[i] == Vista(paquetes[r[i].idPaquete], direcciones[paquetes[r[i].idPaquete].idDireccionFk])
      ensures forall i, j :: 0 <= i < j < |r| ==> r[i].idPaquete != r[j].idPaquete
      ensures forall i :: 0 <= i < |r| ==> r[i].idPaquete in Asignados(State(), idAgente)
      ensures forall k :: k in Asignados(State(), idAgente) ==> exists i :: 0 <= i < |r| && r[i].idPaquete == k
    {
      var found := set k | k in paquetes && Listable(paquetes[k], idAgente);
      var pending := found;
      r := [];
      while pending != {}
        invariant pending <= found
        invariant forall i :: 0 <= i < |r| ==>
          && r[i].idPaquete in found - pending
          && paquetes[r[i].idPaquete].idDireccionFk in direcciones
          && r[i] == Vista(paquetes[r[i].idPaquete], direcciones[paquetes[r[i].idPaquete].idDireccionFk])
        invariant forall i, j :: 0 <= i < j < |r| ==> r[i].idPaquete != r[j].idPaquete
        invariant forall k :: k in found - pending ==> exists i :: 0 <= i < |r| && r[i].idPaquete == k
        decreases pending
      {
        var k :| k in pending;
        var p := paquetes[k];
        assert PaqueteWellFormed(State(), k);
        ghost var prev := r;
        r := r + [Vista(p, direcciones[p.idDireccionFk])];
        forall k' | k' in found - (pending - {k})
          ensures exists i :: 0 <= i < |r| && r[i].idPaquete == k'
        {
          if k' == k {
            assert r[|r| - 1].idPaquete == k;
          } else {
            assert k' in found - pending;
            var i :| 0 <= i < |prev| && prev[i].idPaquete == k';
            assert r[i] == prev[i];
          }
        }
        pending := pending - {k};
      }
      assert found - pending == found == Asignados(State(), idAgente);
    }

    /** `registrar_entrega`. `writeOk` is whether saving the uploaded photo
        succeeded and `commitOk` whether the database then accepted the commit;
        when either fails, the clean-up removes the file at that path. */
    method RegistrarEntrega(idPaquete: string, idAgente: int, lat: Coord, lon: Coord, filename: string,
                            localNow: DateTime, utcNow: DateTime, writeOk: bool, commitOk: bool) returns (r: Result<EntregaOk>)
      requires Valid() && ValidDateTime(localNow)
      modifies this`paquetes, this`entregas, this`nextEntregaId, this`uploads
      ensures Valid()
      ensures Outcome(State(), r)
                == Handlers.RegistrarEntrega(old(State()), idPaquete, idAgente, lat, lon, filename, localNow, utcNow, writeOk, commitOk)
      ensures uploads == if !Eligible(old(State()), idPaquete, idAgente) then old(uploads)
                         else if writeOk && commitOk then old(uploads) + {RutaFoto(idPaquete, localNow, filename)}
                         else old(uploads) - {RutaFoto(idPaquete, localNow, filename)}
    {
      ghost var before := State();
      if !(idPaquete in paquetes && Listable(paquetes[idPaquete], idAgente)) {
        return Err(PaqueteNoElegible);
      }
      var paquete := paquetes[idPaquete];
      var ruta := RutaFoto(idPaquete, localNow, filename);
      if !writeOk {
        uploads := uploads - {ruta};
        return Err(ErrorGuardarEntrega);
      }
      uploads := uploads + {ruta};
      if !commitOk {
        uploads := uploads - {ruta};
        return Err(ErrorGuardarEntrega);
      }
      var entrega := RegistroEntrega(nextEntregaId, idPaquete, idAgente, ruta, lat, lon, utcNow);
      var after := CommitEntrega(Db(agentes, direcciones, paquetes, entregas, nextAgenteId, nextDireccionId, nextEntregaId), entrega);
      CommitEntregaPreserves(before, entrega);
      paquetes, entregas, nextEntregaId := after.paquetes, after.entregas, after.nextEntregaId;
      r := Ok(EntregaOk(EntregaRegistrada(idPaquete), entrega));
      assert State() == CommitEntrega(before, entrega);
    }
  }
}

/** The four tables the handlers use (`agente`, `direccion`, `paquete`,
    `registroentrega`), their rows, the responses and errors the handlers
    return, and the invariant the database keeps between requests. */
module Schema {
  import opened Timestamps

  /** A floating-point coordinate, kept as the 64 bits of the double; the model
      does no arithmetic on it. */
  datatype Coord = Coord(bits: bv64)

  /** The `estado` enumeration of a package. */
  datatype Estado = Asignado | EnRuta | Entregado | Cancelado

  datatype Agente = Agente(idAgente: int, nombre: string, usuario: string, passwordHash: string, activo: bool)

  datatype Direccion = Direccion(
    idDireccion: int,
    calleNumero: string,
    colonia: string,
    ciudad: string,
    codigoPostal: string,
    latitudDestino: Coord,
    longitudDestino: Coord)

  datatype Paquete = Paquete(
    idPaquete: string,
    idDireccionFk: int,
    idAgenteAsignadoFk: int,
    estado: Estado,
    fechaAsignacion: DateTime)

  datatype RegistroEntrega = RegistroEntrega(
    idEntrega: int,
    idPaqueteFk: string,
    idAgenteFk: int,
    rutaFoto: string,
    latitudGps: Coord,
    longitudGps: Coord,
    fechaEntrega: DateTime)

  /** A package together with its address, as package creation and listing return it. */
  datatype PaqueteAsignado = PaqueteAsignado(idPaquete: string, idAgenteAsignadoFk: int, estado: Estado, direccion: Direccion)

  datatype LoginOk = LoginOk(msg: string, idAgente: int, nombre: string)

  datatype EntregaOk = EntregaOk(msg: string, entrega: RegistroEntrega)

  /** An HTTP error response: status code and detail message. */
  datatype HttpError = HttpError(status: int, detail: string)

  datatype Result<T> = Ok(value: T) | Err(error: HttpError)

  /** The committed contents of the database: each table keyed by its primary
      key, and the next value of each auto-increment column. */
  datatype Db = Db(
    agentes: map<int, Agente>,
    direcciones: map<int, Direccion>,
    paquetes: map<string, Paquete>,
    entregas: map<int, RegistroEntrega>,
    nextAgenteId: int,
    nextDireccionId: int,
    nextEntregaId: int)

  const EmptyDb: Db := Db(map[], map[], map[], map[], 1, 1, 1)

  /** `usuario` is a unique column of `agente`. */
  ghost predicate UsuarioUnique(agentes: map<int, Agente>) {
    forall i, j :: i in agentes && j in agentes && agentes[i].usuario == agentes[j].usuario ==> i == j
  }

  /** `id_paquete_fk` is a unique column of `registroentrega`. */
  ghost predicate OneEntregaPerPaquete(entregas: map<int, RegistroEntrega>) {
    forall e1, e2 :: e1 in entregas && e2 in entregas && entregas[e1].idPaqueteFk == entregas[e2].idPaqueteFk ==> e1 == e2
  }

  /** Addresses are created one per package, so no two packages share one. */
  ghost predicate DireccionesNotShared(paquetes: map<string, Paquete>) {
    forall k1, k2 :: k1 in paquetes && k2 in paquetes && paquetes[k1].idDireccionFk == paquetes[k2].idDireccionFk ==> k1 == k2
  }

  ghost predicate HasEntrega(entregas: map<int, RegistroEntrega>, idPaquete: string) {
    exists e :: e in entregas && entregas[e].idPaqueteFk == idPaquete
  }

  /** The package's foreign keys point at existing rows. */
  ghost predicate PaqueteWellFormed(db: Db, k: string)
    requires k in db.paquetes
  {
    var p := db.paquetes[k];
    p.idPaquete == k && p.idDireccionFk in db.direcciones && p.idAgenteAsignadoFk in db.agentes
  }

  /** The record's package exists, is delivered, and was delivered by its assigned agent. */
  ghost predicate EntregaWellFormed(db: Db, e: int)
    requires e in db.entregas
  {
    var r := db.entregas[e];
    && r.idEntrega == e && 0 < e < db.nextEntregaId
    && r.idPaqueteFk in db.paquetes
    && db.paquetes[r.idPaqueteFk].estado == Entregado
    && r.idAgenteFk == db.paquetes[r.idPaqueteFk].idAgenteAsignadoFk
    && r.idAgenteFk in db.agentes
  }

  /** Every row sits under its own primary key, and auto-increment keys are
      positive and below the next value to be handed out. */
  ghost predicate KeysInRange(db: Db) {
    && 0 < db.nextAgenteId && 0 < db.nextDireccionId && 0 < db.nextEntregaId
    && (forall id :: id in db.agentes ==> db.agentes[id].idAgente == id && 0 < id < db.nextAgenteId)
    && (forall id :: id in db.direcciones ==> db.direcciones[id].idDireccion == id && 0 < id < db.nextDireccionId)
  }

  ghost predicate PaquetesWellFormed(db: Db) {
    forall k :: k in db.paquetes ==> PaqueteWellFormed(db, k)
  }

  ghost predicate EntregasWellFormed(db: Db) {
    forall e :: e in db.entregas ==> EntregaWellFormed(db, e)
  }

  /** A package is Entregado only through a delivery record. */
  ghost predicate EntregadosRecorded(db: Db) {
    forall k :: k in db.paquetes && db.paquetes[k].estado == Entregado ==> HasEntrega(db.entregas, k)
  }

  /** What holds of the database between any two requests. */
  ghost predicate Consistent(db: Db) {
    && KeysInRange(db)
    && UsuarioUnique(db.agentes)
    && PaquetesWellFormed(db)
    && DireccionesNotShared(db.paquetes)
    && EntregasWellFormed(db)
    && OneEntregaPerPaquete(db.entregas)
    && EntregadosRecorded(db)
  }

  /** A package may only stay as it is, or go from Asignado or En Ruta to Entregado. */
  predicate Advances(before: Paquete, after: Paquete) {
    after == before
    || ((before.estado == Asignado || before.estado == EnRuta) && after == before.(estado := Entregado))
  }

  /** No row disappears or changes, except packages advancing to Entregado. */
  ghost predicate Evolves(before: Db, after: Db) {
    && (forall id :: id in before.agentes ==> id in after.agentes && after.agentes[id] == before.agentes[id])
    && (forall id :: id in before.direcciones ==> id in after.direcciones && after.direcciones[id] == before.direcciones[id])
    && (forall e :: e in before.entregas ==> e in after.entregas && after.entregas[e] == before.entregas[e])
    && (forall k :: k in before.paquetes ==> k in after.paquetes && Advances(before.paquetes[k], after.paquetes[k]))
  }

  lemma EmptyDbConsistent()
    ensures Consistent(EmptyDb)
  {
  }

  /** Entregado is terminal: once delivered, a package stays delivered. */
  lemma EntregadoIsTerminal(before: Db, after: Db, k: string)
    requires Evolves(before, after)
    requires k in before.paquetes && before.paquetes[k].estado == Entregado
    ensures k in after.paquetes && after.paquetes[k] == before.paquetes[k]
  {
  }

  lemma EvolvesTransitive(a: Db, b: Db, c: Db)
    requires Evolves(a, b) && Evolves(b, c)
    ensures Evolves(a, c)
  {
  }

  /** Rows that survive unchanged keep their foreign keys valid; only new packages need checking. */
  lemma EvolvesKeepsPaquetesWellFormed(before: Db, after: Db)
    requires PaquetesWellFormed(before) && Evolves(before, after)
    requires forall k :: k in after.paquetes && k !in before.paquetes ==> PaqueteWellFormed(after, k)
    ensures PaquetesWellFormed(after)
  {
    forall k | k in after.paquetes ensures PaqueteWellFormed(after, k) {
      if k in before.paquetes {
        assert PaqueteWellFormed(before, k);
      }
    }
  }

  /** Old delivery records stay valid, because their packages stay Entregado; only new records need checking. */
  lemma EvolvesKeepsEntregasWellFormed(before: Db, after: Db)
    requires EntregasWellFormed(before) && Evolves(before, after)
    requires before.nextEntregaId <= after.nextEntregaId
    requires forall e :: e in after.entregas && e !in before.entregas ==> EntregaWellFormed(after, e)
    ensures EntregasWellFormed(after)
  {
    forall e | e in after.entregas ensures EntregaWellFormed(after, e) {
      if e in before.entregas {
        assert EntregaWellFormed(before, e);
        var k := before.entregas[e].idPaqueteFk;
        assert Advances(before.paquetes[k], after.paquetes[k]);
      }
    }
  }

  /** Old records are kept, so only packages that newly became Entregado need a record. */
  lemma EvolvesKeepsEntregadosRecorded(before: Db, after: Db)
    requires EntregadosRecorded(before) && Evolves(before, after)
    requires forall k :: k in after.paquetes && after.paquetes[k].estado == Entregado
                         && (k !in before.paquetes || before.paquetes[k].estado != Entregado)
                         ==> HasEntrega(after.entregas, k)
    ensures EntregadosRecorded(after)
  {
    forall k | k in after.paquetes && after.paquetes[k].estado == Entregado ensures HasEntrega(after.entregas, k) {
      if k in before.paquetes && before.paquetes[k].estado == Entregado {
        var e :| e in before.entregas && before.entregas[e].idPaqueteFk == k;
        assert after.entregas[e] == before.entregas[e];
      }
    }
  }

  // The three commits the handlers make, and what each keeps of Consistent.

  /** Insert an agent under the next auto-increment id. */
  function CommitAgente(db: Db, a: Agente): Db {
    db.(agentes := db.agentes[a.idAgente := a], nextAgenteId := db.nextAgenteId + 1)
  }

  /** Insert an address under the next auto-increment id and a package pointing at it. */
  function CommitPaquete(db: Db, d: Direccion, p: Paquete): Db {
    db.(direcciones := db.direcciones[d.idDireccion := d],
        paquetes := db.paquetes[p.idPaquete := p],
        nextDireccionId := db.nextDireccionId + 1)
  }

  /** Insert a delivery record under the next auto-increment id and mark its package Entregado. */
  function CommitEntrega(db: Db, r: RegistroEntrega): Db
    requires r.idPaqueteFk in db.paquetes
  {
    db.(entregas := db.entregas[r.idEntrega := r],
        paquetes := db.paquetes[r.idPaqueteFk := db.paquetes[r.idPaqueteFk].(estado := Entregado)],
        nextEntregaId := db.nextEntregaId + 1)
  }

  lemma CommitAgenteEvolves(db: Db, a: Agente)
    requires a.idAgente !in db.agentes
    ensures Evolves(db, CommitAgente(db, a))
  {
  }

  lemma CommitAgentePreserves(db: Db, a: Agente)
    requires Consistent(db)
    requires a.idAgente == db.nextAgenteId
    requires forall id :: id in db.agentes ==> db.agentes[id].usuario != a.usuario
    ensures Consistent(CommitAgente(db, a)) && Evolves(db, CommitAgente(db, a))
  {
    var after := CommitAgente(db, a);
    CommitAgenteEvolves(db, a);
    assert KeysInRange(after);
    assert UsuarioUnique(after.agentes);
    EvolvesKeepsPaquetesWellFormed(db, after);
    EvolvesKeepsEntregasWellFormed(db, after);
    EvolvesKeepsEntregadosRecorded(db, after);
  }

  lemma CommitPaqueteEvolves(db: Db, d: Direccion, p: Paquete)
    requires d.idDireccion !in db.direcciones && p.idPaquete !in db.paquetes
    ensures Evolves(db, CommitPaquete(db, d, p))
  {
  }

  /** No package uses the address id handed out next. */
  lemma NextDireccionUnused(db: Db)
    requires KeysInRange(db) && PaquetesWellFormed(db)
    ensures db.nextDireccionId !in db.direcciones
    ensures forall k :: k in db.paquetes ==> db.paquetes[k].idDireccionFk != db.nextDireccionId
  {
    forall k | k in db.paquetes ensures db.paquetes[k].idDireccionFk != db.nextDireccionId {
      assert PaqueteWellFormed(db, k);
    }
  }

  lemma CommitPaquetePreserves(db: Db, d: Direccion, p: Paquete)
    requires Consistent(db)
    requires d.idDireccion == db.nextDireccionId
    requires p.idPaquete !in db.paquetes && p.idAgenteAsignadoFk in db.agentes
    requires p.idDireccionFk == d.idDireccion && p.estado == Asignado
    ensures Consistent(CommitPaquete(db, d, p)) && Evolves(db, CommitPaquete(db, d, p))
  {
    var after := CommitPaquete(db, d, p);
    NextDireccionUnused(db);
    CommitPaqueteEvolves(db, d, p);
    assert KeysInRange(after);
    assert PaqueteWellFormed(after, p.idPaquete);
    EvolvesKeepsPaquetesWellFormed(db, after);
    assert DireccionesNotShared(after.paquetes);
    EvolvesKeepsEntregasWellFormed(db, after);
    EvolvesKeepsEntregadosRecorded(db, after);
  }

  /** A change of estado alone keeps addresses unshared. */
  lemma EvolvesKeepsDireccionesNotShared(before: Db, after: Db)
    requires DireccionesNotShared(before.paquetes) && Evolves(before, after)
    requires after.paquetes.Keys <= before.paquetes.Keys
    ensures DireccionesNotShared(after.paquetes)
  {
    forall k1, k2 | k1 in after.paquetes && k2 in after.paquetes && after.paquetes[k1].idDireccionFk == after.paquetes[k2].idDireccionFk
      ensures k1 == k2
    {
      assert Advances(before.paquetes[k1], after.paquetes[k1]);
      assert Advances(before.paquetes[k2], after.paquetes[k2]);
    }
  }

  /** A package that is not Entregado has no delivery record. */
  lemma UndeliveredHasNoEntrega(db: Db, k: string)
    requires EntregasWellFormed(db)
    requires k in db.paquetes && db.paquetes[k].estado != Entregado
    ensures forall e :: e in db.entregas ==> db.entregas[e].idPaqueteFk != k && e != db.nextEntregaId
  {
    forall e | e in db.entregas ensures db.entregas[e].idPaqueteFk != k && e != db.nextEntregaId {
      assert EntregaWellFormed(db, e);
    }
  }

  lemma CommitEntregaEvolves(db: Db, r: RegistroEntrega)
    requires r.idPaqueteFk in db.paquetes && r.idEntrega !in db.entregas
    requires db.paquetes[r.idPaqueteFk].estado == Asignado || db.paquetes[r.idPaqueteFk].estado == EnRuta
    ensures Evolves(db, CommitEntrega(db, r))
  {
  }

  /** The new record is well formed and the only one for its package. */
  lemma CommitEntregaKeepsEntregas(db: Db, r: RegistroEntrega)
    requires Consistent(db)
    requires r.idEntrega == db.nextEntregaId && r.idPaqueteFk in db.paquetes
    requires db.paquetes[r.idPaqueteFk].estado == Asignado || db.paquetes[r.idPaqueteFk].estado == EnRuta
    requires r.idAgenteFk == db.paquetes[r.idPaqueteFk].idAgenteAsignadoFk
    requires forall e :: e in db.entregas ==> db.entregas[e].idPaqueteFk != r.idPaqueteFk
    requires Evolves(db, CommitEntrega(db, r))
    ensures EntregasWellFormed(CommitEntrega(db, r)) && OneEntregaPerPaquete(CommitEntrega(db, r).entregas)
  {
    var after := CommitEntrega(db, r);
    assert PaqueteWellFormed(db, r.idPaqueteFk);
    assert EntregaWellFormed(after, r.idEntrega);
    EvolvesKeepsEntregasWellFormed(db, after);
  }

  /** The package the new record is for is the only one that becomes Entregado, and it has its record. */
  lemma CommitEntregaKeepsRecorded(db: Db, r: RegistroEntrega)
    requires EntregadosRecorded(db)
    requires r.idPaqueteFk in db.paquetes && r.idEntrega !in db.entregas
    ensures EntregadosRecorded(CommitEntrega(db, r))
  {
    var after := CommitEntrega(db, r);
    forall k | k in after.paquetes && after.paquetes[k].estado == Entregado ensures HasEntrega(after.entregas, k) {
      if k == r.idPaqueteFk {
        assert after.entregas[r.idEntrega].idPaqueteFk == k;
      } else {
        var e :| e in db.entregas && db.entregas[e].idPaqueteFk == k;
        assert after.entregas[e].idPaqueteFk == k;
      }
    }
  }

  lemma CommitEntregaPreserves(db: Db, r: RegistroEntrega)
    requires Consistent(db)
    requires r.idEntrega == db.nextEntregaId
    requires r.idPaqueteFk in db.paquetes
    requires db.paquetes[r.idPaqueteFk].estado == Asignado || db.paquetes[r.idPaqueteFk].estado == EnRuta
    requires r.idAgenteFk == db.paquetes[r.idPaqueteFk].idAgenteAsignadoFk
    ensures Consistent(CommitEntrega(db, r)) && Evolves(db, CommitEntrega(db, r))
  {
    var after := CommitEntrega(db, r);
    UndeliveredHasNoEntrega(db, r.idPaqueteFk);
    CommitEntregaEvolves(db, r);
    EvolvesKeepsPaquetesWellFormed(db, after);
    EvolvesKeepsDireccionesNotShared(db, after);
    CommitEntregaKeepsEntregas(db, r);
    CommitEntregaKeepsRecorded(db, r);
  }
}

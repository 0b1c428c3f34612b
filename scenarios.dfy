/** A walk through one delivery from start to finish on an empty database,
    following the service's own flow: register an agent, log in, assign a
    package, list it, deliver it. Each step's database is written out in full. */
module Scenarios {
  import opened Timestamps
  import opened Passwords
  import opened Schema
  import opened Handlers

  const Now: DateTime := DateTime(2024, 5, 17, 9, 30, 0)

  /** A delivery made at 09:30:00 on 17 May 2024 names its photo with this stamp. */
  lemma NowStamp()
    ensures FormatStamp(Now) == "20240517093000"
  {
    assert FormatStamp(DateTime(2024, 5, 17, 9, 30, 0)) == "20240517093000";
  }

  function Ana(sha: Digest): Agente {
    Agente(1, "Ana", "repartidor1", HashPassword(sha, "clave"), true)
  }

  const Pkg: Paquete := Paquete("PKG-1", 1, 1, Asignado, Now)

  function Db1(sha: Digest): Db {
    EmptyDb.(agentes := map[1 := Ana(sha)], nextAgenteId := 2)
  }

  function Db2(sha: Digest, lat: Coord, lon: Coord): Db {
    Db1(sha).(direcciones := map[1 := NuevaDireccion(1, "Av. Reforma 10", lat, lon)],
              paquetes := map["PKG-1" := Pkg], nextDireccionId := 2)
  }

  function Foto(lat: Coord, lon: Coord): RegistroEntrega {
    RegistroEntrega(1, "PKG-1", 1, RutaFoto("PKG-1", Now, "foto.jpg"), lat, lon, Now)
  }

  function Db3(sha: Digest, lat: Coord, lon: Coord): Db {
    Db2(sha, lat, lon).(paquetes := map["PKG-1" := Pkg.(estado := Entregado)],
                        entregas := map[1 := Foto(lat, lon)], nextEntregaId := 2)
  }

  /** The first agent registered gets id 1 and logs in with its password; an
      unknown usuario gets the 401. */
  lemma AgentStep(sha: Digest)
    ensures CreateAgente(EmptyDb, sha, "repartidor1", "Ana", "clave") == Outcome(Db1(sha), Ok(Ana(sha)))
    ensures Consistent(Db1(sha))
    ensures Login(Db1(sha), sha, "repartidor1", "clave") == Ok(LoginOk(LoginExitoso, 1, "Ana"))
    ensures Login(Db1(sha), sha, "desconocido", "clave") == Err(CredencialesIncorrectas)
  {
    EmptyDbConsistent();
    assert !UsuarioTaken(EmptyDb.agentes, "repartidor1");
    CreateAgentePreserves(EmptyDb, sha, "repartidor1", "Ana", "clave");
    LoginOutcome(Db1(sha), sha, "repartidor1", "clave", 1);
    assert !UsuarioTaken(Db1(sha).agentes, "desconocido");
    LoginUnknownUsuario(Db1(sha), sha, "desconocido", "clave");
  }

  /** The package is assigned to agent 1 and listed for it; the same id again
      and an unknown agent are refused, leaving the database as it was. */
  lemma PackageStep(sha: Digest, lat: Coord, lon: Coord)
    ensures CreatePaquete(Db1(sha), "PKG-1", 1, "Av. Reforma 10", lat, lon, Now).after == Db2(sha, lat, lon)
    ensures Consistent(Db2(sha, lat, lon))
    ensures Asignados(Db2(sha, lat, lon), 1) == {"PKG-1"}
    ensures CreatePaquete(Db2(sha, lat, lon), "PKG-1", 1, "Av. Reforma 10", lat, lon, Now)
              == Outcome(Db2(sha, lat, lon), Err(ErrorFatal))
    ensures CreatePaquete(Db2(sha, lat, lon), "PKG-2", 2, "Av. Reforma 10", lat, lon, Now)
              == Outcome(Db2(sha, lat, lon), Err(AgenteNoEncontrado))
  {
    AgentStep(sha);
    CreatePaquetePreserves(Db1(sha), "PKG-1", 1, "Av. Reforma 10", lat, lon, Now);
    assert Asignados(Db2(sha, lat, lon), 1) == {"PKG-1"};
  }

  /** Another agent cannot deliver the package; its own agent can, once: the
      record points at the photo, the package leaves the listing, and a second
      delivery is refused. */
  lemma DeliveryStep(sha: Digest, lat: Coord, lon: Coord)
    ensures RegistrarEntrega(Db2(sha, lat, lon), "PKG-1", 2, lat, lon, "foto.jpg", Now, Now, true, true)
              == Outcome(Db2(sha, lat, lon), Err(PaqueteNoElegible))
    ensures RegistrarEntrega(Db2(sha, lat, lon), "PKG-1", 1, lat, lon, "foto.jpg", Now, Now, true, true)
              == Outcome(Db3(sha, lat, lon), Ok(EntregaOk(EntregaRegistrada("PKG-1"), Foto(lat, lon))))
    ensures Asignados(Db3(sha, lat, lon), 1) == {}
    ensures RegistrarEntrega(Db3(sha, lat, lon), "PKG-1", 1, lat, lon, "foto.jpg", Now, Now, true, true)
              == Outcome(Db3(sha, lat, lon), Err(PaqueteNoElegible))
  {
    assert Asignados(Db3(sha, lat, lon), 1) == {};
  }
}

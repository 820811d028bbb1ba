/** A request waits, and goes back to waiting when its instance is lost, for the milliseconds its
    process asked for. */
module TiemposIo {
  import opened Comunes
  import opened Estados
  import opened Colas
  import opened GruposIo
  import opened Nucleo
  import opened InvColas
  import opened InvPasos
  import opened InvIo
  import opened Vidas
  import opened KernelCorridas
  import opened Efectos
  import opened OrdenIo

  // The request carries what its process asked for last.
  predicate ConSuTiempo(s: Procesos, x: Solicitud) { x.pid in s.pcbs && x.tiempo == s.pcbs[x.pid].bloqueoIo }

  ghost predicate TiemposOk(k: Foto) {
    forall d, i :: d in k.io && 0 <= i < |k.io[d].espera| ==> ConSuTiempo(k.procs, k.io[d].espera[i])
  }

  /** A blocked process keeps what it asked for. */
  lemma {:induction false} BloqueadoConserva(k: Foto, ev: Evento, p: int)
    requires Inv(k) && Posible(k, ev) && Bloqueado(k.procs, p)
    ensures Sano(k) && p in Paso(k, ev).procs.pcbs && Paso(k, ev).procs.pcbs[p].bloqueoIo == k.procs.pcbs[p].bloqueoIo
  {
    EvolucionPaso(k, ev);
    match ev
    case CpuResponder(i, r, t) => RespuestaDestina(k, i, r, t);
    case CpDespachar(orden, t) => if !k.conf.corto.CpDesconocido? { var q, i := DespachoElige(k, orden, t); }
    case _ => ConservanPaso(k, ev);
  }

  // The requests a group has to serve in a step: put back, waiting, arriving.
  ghost predicate Servible(k: Foto, ev: Evento, d: seq<char>, x: Solicitud)
    requires Posible(k, ev)
  {
    x in Restaura(k, ev, d) || x in GrupoDe(k, d).espera || x in Encola(k, ev, d)
  }

  lemma {:induction false} PedidoBloqueado(k: Foto, d: seq<char>, x: Solicitud)
    requires Inv(k) && x in GrupoDe(k, d).espera
    ensures Bloqueado(k.procs, x.pid)
  {
    var i :| 0 <= i < |GrupoDe(k, d).espera| && GrupoDe(k, d).espera[i] == x;
    EsperaPositiva(k.io[d].espera, i);
    assert Pide(k.io, d, x.pid);
  }

  lemma {:induction false} RestauradoBloqueado(k: Foto, ev: Evento, d: seq<char>, x: Solicitud)
    requires Inv(k) && Posible(k, ev) && x in Restaura(k, ev, d)
    ensures Bloqueado(k.procs, x.pid) && ConSuTiempo(k.procs, x)
  {
    ServicioPositivo(k.io[d].instancias, ev.j, x.pid);
    assert Pide(k.io, d, x.pid);
  }

  lemma {:induction false} ServibleConTiempo(k: Foto, ev: Evento, d: seq<char>, x: Solicitud)
    requires Inv(k) && TiemposOk(k) && Posible(k, ev) && Servible(k, ev, d, x)
    ensures Sano(k) && ConSuTiempo(Paso(k, ev).procs, x)
  {
    if x in Encola(k, ev, d) {
      RespuestaAnota(k, ev.i, ev.r, ev.t);
    } else {
      if x in Restaura(k, ev, d) { RestauradoBloqueado(k, ev, d, x); }
      else { PedidoBloqueado(k, d, x); EsperaConTiempo(k, d, x); }
      BloqueadoConserva(k, ev, x.pid);
    }
  }

  lemma {:induction false} EsperaConTiempo(k: Foto, d: seq<char>, x: Solicitud)
    requires TiemposOk(k) && x in GrupoDe(k, d).espera
    ensures ConSuTiempo(k.procs, x)
  {
    var i :| 0 <= i < |GrupoDe(k, d).espera| && GrupoDe(k, d).espera[i] == x;
  }

  /** In every step, what goes into service and what is left waiting carries its process's time. */
  lemma {:induction false} TurnoConTiempo(k: Foto, ev: Evento, d: seq<char>, x: Solicitud)
    requires Inv(k) && TiemposOk(k) && Posible(k, ev) && !Pierde(k, ev, d)
    ensures Sano(k)
    ensures x in Entran(k, ev, d) || x in GrupoDe(Paso(k, ev), d).espera ==> ConSuTiempo(Paso(k, ev).procs, x)
  {
    TurnoPaso(k, ev, d, 0);
    var todo := Restaura(k, ev, d) + GrupoDe(k, d).espera + Encola(k, ev, d);
    if x in Entran(k, ev, d) || x in GrupoDe(Paso(k, ev), d).espera {
      assert x in todo;
      ServibleConTiempo(k, ev, d, x);
    }
  }

  lemma {:induction false} PierdeElGrupo(k: Foto, d: seq<char>, j: nat, t: int)
    requires Base(k) && Posible(k, IoDesconectar(d, j, t)) && |k.io[d].instancias| == 1
    ensures Sano(k) && d !in Paso(k, IoDesconectar(d, j, t)).io
  {
    var g := SinInstancia(k.io[d], j, Recuperada(k, k.io[d].instancias[j]));
    ColaDelPerdido(k, d, j);
    FinalizarTodosOk(k.(io := k.io - {d}), g.espera, t);
  }

  lemma {:induction false} TiemposPaso(k: Foto, ev: Evento)
    requires Inv(k) && TiemposOk(k) && Posible(k, ev)
    ensures Sano(k) && TiemposOk(Paso(k, ev))
  {
    InvPaso(k, ev);
    var h := Paso(k, ev);
    forall d, i | d in h.io && 0 <= i < |h.io[d].espera| ensures ConSuTiempo(h.procs, h.io[d].espera[i]) {
      if Pierde(k, ev, d) { PierdeElGrupo(k, d, ev.j, ev.t); } else { TurnoConTiempo(k, ev, d, h.io[d].espera[i]); }
    }
  }

  lemma {:induction false} TiemposCorrida(k: Foto, evs: seq<Evento>)
    requires Inv(k) && TiemposOk(k) && Posibles(k, evs)
    ensures Inv(Correr(k, evs)) && TiemposOk(Correr(k, evs))
    decreases |evs|
  {
    if evs != [] {
      TiemposPaso(k, evs[0]);
      InvPaso(k, evs[0]);
      TiemposCorrida(Paso(k, evs[0]), evs[1..]);
    }
  }

  /** In any run from boot, a request goes into service with the time its process asked for, also
      after its first instance was lost. */
  lemma {:induction false} SirveLoPedido(conf: Conf, t: int, evs: seq<Evento>, ev: Evento, d: seq<char>, x: Solicitud)
    requires Posibles(Arranque(conf, t), evs) && Posible(Correr(Arranque(conf, t), evs), ev) && !Pierde(Correr(Arranque(conf, t), evs), ev, d)
    ensures var k := Correr(Arranque(conf, t), evs);
            Sano(k) && (x in Entran(k, ev, d) ==>
                          x.pid in Paso(k, ev).procs.pcbs && x.tiempo == Paso(k, ev).procs.pcbs[x.pid].bloqueoIo)
  {
    InvArranque(conf, t);
    TiemposCorrida(Arranque(conf, t), evs);
    TurnoConTiempo(Correr(Arranque(conf, t), evs), ev, d, x);
  }
}
